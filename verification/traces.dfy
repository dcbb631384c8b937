/**
 * Sequences of calls on one client. A test drives the client through a
 * series of operations; these lemmas say what holds after any such series.
 */
module Traces {
  import opened Mandrill
  import opened ClientModel

  /** One call of the client's interface, with its arguments. */
  datatype Call<C> =
    | PingCall
    | SendCall(message: Message)
    | SendTemplateCall(message: Message, templateName: string, contents: C)
    | SubaccountInfoCall(id: string)
    | DeleteSubaccountCall(id: string)
    | UpdateSubaccountCall(subaccount: Subaccount)
    | AddSubaccountCall(subaccount: Subaccount)
    | TemplateInfoCall(name: string)
    | DeleteTemplateCall(name: string)
    | UpdateTemplateCall(template: Template)
    | AddTemplateCall(template: Template)

  /** A reply with its payload dropped: success, or the kind of failure. */
  function Outcome<T>(r: Result<T>): Result<()>
  {
    match r
    case Ok(_) => Ok(())
    case Err(e) => Err(e)
  }

  /** The state after one call, and whether it succeeded. */
  function Apply<C>(s: State<C>, call: Call<C>): Step<C, ()>
  {
    match call
    case PingCall => Step(s, Outcome(Ping(s)))
    case SendCall(m) =>
      var o := MessagesSend(s, m); Step(o.next, Outcome(o.reply))
    case SendTemplateCall(m, name, c) =>
      var o := MessagesSendTemplate(s, m, name, c); Step(o.next, Outcome(o.reply))
    case SubaccountInfoCall(id) => Step(s, Outcome(SubaccountInfo(s, id)))
    case DeleteSubaccountCall(id) =>
      var o := DeleteSubaccount(s, id); Step(o.next, Outcome(o.reply))
    case UpdateSubaccountCall(sa) =>
      var o := UpdateSubaccount(s, sa); Step(o.next, Outcome(o.reply))
    case AddSubaccountCall(sa) =>
      var o := AddSubaccount(s, sa); Step(o.next, Outcome(o.reply))
    case TemplateInfoCall(name) => Step(s, Outcome(TemplateInfo(s, name)))
    case DeleteTemplateCall(name) =>
      var o := DeleteTemplate(s, name); Step(o.next, Outcome(o.reply))
    case UpdateTemplateCall(t) =>
      var o := UpdateTemplate(s, t); Step(o.next, Outcome(o.reply))
    case AddTemplateCall(t) =>
      var o := AddTemplate(s, t); Step(o.next, Outcome(o.reply))
  }

  /** The state after making the calls in order. */
  function Run<C>(s: State<C>, calls: seq<Call<C>>): State<C>
    decreases calls
  {
    if calls == [] then s else Run(Apply(s, calls[0]).next, calls[1..])
  }

  /** The outcome of each call, in order. */
  function Outcomes<C>(s: State<C>, calls: seq<Call<C>>): seq<Result<()>>
    decreases calls
  {
    if calls == [] then [] else [Apply(s, calls[0]).reply] + Outcomes(Apply(s, calls[0]).next, calls[1..])
  }

  /**
   * Every template is filed under its own key and every subaccount under
   * its own id. A fresh client has this property and every call keeps it.
   */
  ghost predicate WellKeyed<C>(s: State<C>)
  {
    && (forall k :: k in s.templates ==> s.templates[k].key == k)
    && (forall k :: k in s.subaccounts ==> s.subaccounts[k].id == k)
  }

  /** No call changes the availability flag or the API key. */
  lemma {:induction false} RunKeepsSettings<C>(s: State<C>, calls: seq<Call<C>>)
    ensures Run(s, calls).ok == s.ok
    ensures Run(s, calls).apiKey == s.apiKey
    decreases calls
  {
    if calls != [] {
      RunKeepsSettings(Apply(s, calls[0]).next, calls[1..]);
    }
  }

  /**
   * With the service down, every call in any series fails with Unavailable
   * and the state, recorded message, template name and contents included,
   * is exactly what it was.
   */
  lemma {:induction false} OutageIsTotal<C>(s: State<C>, calls: seq<Call<C>>)
    requires !s.ok
    ensures Run(s, calls) == s
    ensures |Outcomes(s, calls)| == |calls|
    ensures forall i :: 0 <= i < |calls| ==> Outcomes(s, calls)[i] == Err(Unavailable)
    decreases calls
  {
    if calls != [] {
      assert Apply(s, calls[0]) == Step(s, Err(Unavailable));
      OutageIsTotal(s, calls[1..]);
    }
  }

  /** A failed call leaves the whole state as it was. */
  lemma FailedCallChangesNothing<C>(s: State<C>, call: Call<C>)
    requires Apply(s, call).reply.Err?
    ensures Apply(s, call).next == s
  {
  }

  /** One call keeps every entry filed under its own key. */
  lemma ApplyKeepsWellKeyed<C>(s: State<C>, call: Call<C>)
    requires WellKeyed(s)
    ensures WellKeyed(Apply(s, call).next)
  {
  }

  /** Any series of calls keeps every entry filed under its own key. */
  lemma {:induction false} RunKeepsWellKeyed<C>(s: State<C>, calls: seq<Call<C>>)
    requires WellKeyed(s)
    ensures WellKeyed(Run(s, calls))
    decreases calls
  {
    if calls != [] {
      ApplyKeepsWellKeyed(s, calls[0]);
      RunKeepsWellKeyed(Apply(s, calls[0]).next, calls[1..]);
    }
  }
}
