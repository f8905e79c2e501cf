/** The notification form (src/modules/notifications/NotificationsPage.tsx):
    four form fields and the send handler that checks and clears them. */
module NotificationsPage {

  /** The form's fields; type and audience hold the selected option values. */
  datatype FormState = FormState(title: string, message: string, kind: string, audience: string)

  const InitialForm := FormState("", "", "push", "all_users")

  /** The two toasts handleSend can show. */
  const MissingFieldsToast := "Please fill in all fields"
  const SentToast := "Notification sent successfully!"

  /** What handleSend does: a form with an empty title or message is
      refused and kept as it is; otherwise the notification goes out and the
      title and message are cleared. */
  datatype SendResult = SendResult(form: FormState, sent: bool, toast: string)

  function Send(s: FormState): (r: SendResult)
    ensures r.sent <==> s.title != "" && s.message != ""
    ensures !r.sent ==> r.form == s && r.toast == MissingFieldsToast
    ensures r.sent ==> r.form == s.(title := "", message := "") && r.toast == SentToast
  {
    if s.title == "" || s.message == "" then SendResult(s, false, MissingFieldsToast)
    else SendResult(s.(title := "", message := ""), true, SentToast)
  }

  /** Sending never changes the type or the audience. */
  lemma SendKeepsTypeAndAudience(s: FormState)
    ensures Send(s).form.kind == s.kind && Send(s).form.audience == s.audience
  {
  }

  /** Of two sends in a row the second is always refused, and it leaves the
      form as the first one left it. */
  lemma SecondSendFails(s: FormState)
    ensures !Send(Send(s).form).sent
    ensures Send(Send(s).form).form == Send(s).form
  {
  }

  /** The fresh form cannot be sent. */
  lemma InitialFormIsRefused()
    ensures !Send(InitialForm).sent && Send(InitialForm).form == InitialForm
  {
  }

  class NotificationsPage {
    var title: string
    var message: string
    var kind: string
    var audience: string

    function State(): FormState
      reads this
    {
      FormState(title, message, kind, audience)
    }

    constructor ()
      ensures State() == InitialForm
    {
      title, message, kind, audience := "", "", "push", "all_users";
    }

    method SetTitle(t: string)
      modifies this
      ensures State() == old(State()).(title := t)
    {
      title := t;
    }

    method SetMessage(m: string)
      modifies this
      ensures State() == old(State()).(message := m)
    {
      message := m;
    }

    method SetType(k: string)
      modifies this
      ensures State() == old(State()).(kind := k)
    {
      kind := k;
    }

    method SetAudience(a: string)
      modifies this
      ensures State() == old(State()).(audience := a)
    {
      audience := a;
    }

    /** handleSend */
    method HandleSend() returns (toast: string)
      modifies this
      ensures State() == Send(old(State())).form
      ensures toast == Send(old(State())).toast
    {
      if title == "" || message == "" {
        toast := MissingFieldsToast;
        return;
      }
      toast := SentToast;
      title := "";
      message := "";
    }
  }
}
