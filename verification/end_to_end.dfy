/** How the lesson page's request is received by the edge function. */
module EndToEnd {
  import opened Wrappers
  import opened Messages
  import opened Text
  import Lesson
  import Proxy

  /** The JSON body `streamChat` posts for a request. */
  function BodyOf(req: Lesson.ChatRequest): Proxy.ChatBody {
    Proxy.ChatBody(Success(req.messages), Some(req.mode))
  }

  /**
    An accepted send reaches the gateway as the tutor prompt, then the whole
    earlier conversation, then the new trimmed user message, in that order.
   */
  lemma SendReachesGatewayAsTutor(st: Lesson.LessonState, text: string, key: Option<string>, upstream: Proxy.Upstream)
    requires !IsBlank(text) && !st.isLoading && Proxy.KeyConfigured(key)
    ensures var req := Lesson.SendMessage(st, text).request.value;
      var o := Proxy.Handle(Proxy.Request("POST", Success(BodyOf(req))), key, upstream);
      && o.call.Some?
      && o.call.value.messages == [Message(System, Proxy.TutorPrompt)] + st.messages + [Message(User, Trim(text))]
  {
    var sent := Lesson.SendMessage(st, text);
    var req := sent.request.value;
    assert req.messages == st.messages + [Message(User, Trim(text))] by {
      assert sent.state.messages == st.messages + [Message(User, Trim(text))];
    }
    var o := Proxy.Handle(Proxy.Request("POST", Success(BodyOf(req))), key, upstream);
    assert o.call.value.messages == Proxy.Forwarded(Proxy.TutorPrompt, req.messages);
  }
}
