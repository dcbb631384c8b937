/**
 * The test client's state as a value, and each of its operations as a
 * function from the state before the call to the state after it and the
 * reply. The class in module MandrillTest is proved to behave exactly as
 * these functions say; the contracts here state what each operation means.
 *
 * Every operation first checks the availability flag `ok` (failing with
 * Unavailable and changing nothing when it is off), then checks whether the
 * key is present, then looks up, inserts, replaces or deletes one entry, or
 * records the message and acknowledges each recipient.
 */
module ClientModel {
  import opened Mandrill

  datatype Option<T> = None | Some(value: T)

  /** The three kinds of failure the client reports. */
  datatype Error =
    | Unavailable    // the availability flag is off
    | NotFound       // lookup, update or delete of an absent key
    | AlreadyExists  // add of a key that is already present

  datatype Result<T> = Ok(value: T) | Err(error: Error)

  /**
   * Everything the client holds. `message`, `templateName` and `contents`
   * record the last send, for a test to inspect; `message` and `contents`
   * are None until a send records them.
   */
  datatype State<C> = State(
    apiKey: string,
    templates: map<string, Template>,
    subaccounts: map<string, Subaccount>,
    message: Option<Message>,
    ok: bool,
    templateName: string,
    contents: Option<C>)

  /** The state after a call and the call's reply. */
  datatype Step<C, T> = Step(next: State<C>, reply: Result<T>)

  /** The error a failing call reports: the outage first, `otherwise` only when the service is up. */
  function FailureKind<C>(s: State<C>, otherwise: Error): Error
  {
    if s.ok then otherwise else Unavailable
  }

  function Ping<C>(s: State<C>): (r: Result<string>)
    ensures r.Ok? <==> s.ok
    ensures r.Ok? ==> r.value == "pong"
    ensures r.Err? ==> r.error == Unavailable
  {
    if s.ok then Ok("pong") else Err(Unavailable)
  }

  /**
   * One acknowledgement per recipient, built by appending in recipient
   * order.
   */
  function Responses(to: seq<Recipient>): (rs: seq<MessagesResponse>)
    ensures |rs| == |to|
    ensures forall i :: 0 <= i < |to| ==> rs[i].email == to[i].email
  {
    if to == [] then []
    else Responses(to[..|to| - 1]) + [MessagesResponse(to[|to| - 1].email)]
  }

  function MessagesSend<C>(s: State<C>, m: Message): (o: Step<C, seq<MessagesResponse>>)
    ensures o.reply.Ok? <==> s.ok
    ensures o.reply.Err? ==> o.reply.error == Unavailable && o.next == s
    ensures o.reply.Ok? ==> o.next == s.(message := Some(m))
    ensures o.reply.Ok? ==> |o.reply.value| == |m.to|
    ensures o.reply.Ok? ==> forall i :: 0 <= i < |m.to| ==> o.reply.value[i].email == m.to[i].email
  {
    if !s.ok then Step(s, Err(Unavailable))
    else Step(s.(message := Some(m)), Ok(Responses(m.to)))
  }

  function MessagesSendTemplate<C>(s: State<C>, m: Message, name: string, c: C): (o: Step<C, seq<MessagesResponse>>)
    ensures o.reply.Ok? <==> s.ok && name in s.templates
    ensures o.reply.Err? ==> o.reply.error == FailureKind(s, NotFound) && o.next == s
    ensures o.reply.Ok? ==> o.next == s.(message := Some(m), templateName := name, contents := Some(c))
    ensures o.reply.Ok? ==> o.reply == MessagesSend(s, m).reply
  {
    if !s.ok then Step(s, Err(Unavailable))
    else if name !in s.templates then Step(s, Err(NotFound))
    else MessagesSend(s.(templateName := name, contents := Some(c)), m)
  }

  function SubaccountInfo<C>(s: State<C>, id: string): (r: Result<Subaccount>)
    ensures r.Ok? <==> s.ok && id in s.subaccounts
    ensures r.Ok? ==> r.value == s.subaccounts[id]
    ensures r.Err? ==> r.error == FailureKind(s, NotFound)
  {
    if !s.ok then Err(Unavailable)
    else if id !in s.subaccounts then Err(NotFound)
    else Ok(s.subaccounts[id])
  }

  function DeleteSubaccount<C>(s: State<C>, id: string): (o: Step<C, Subaccount>)
    ensures o.reply.Ok? <==> s.ok && id in s.subaccounts
    ensures o.reply.Err? ==> o.reply.error == FailureKind(s, NotFound) && o.next == s
    ensures o.reply.Ok? ==> o.reply.value == s.subaccounts[id]
    ensures o.reply.Ok? ==> o.next.subaccounts.Keys == s.subaccounts.Keys - {id}
    ensures forall k :: k in o.next.subaccounts ==> k in s.subaccounts && o.next.subaccounts[k] == s.subaccounts[k]
    ensures o.next == s.(subaccounts := o.next.subaccounts)
  {
    if !s.ok then Step(s, Err(Unavailable))
    else if id !in s.subaccounts then Step(s, Err(NotFound))
    else Step(s.(subaccounts := s.subaccounts - {id}), Ok(s.subaccounts[id]))
  }

  function UpdateSubaccount<C>(s: State<C>, sa: Subaccount): (o: Step<C, Subaccount>)
    ensures o.reply.Ok? <==> s.ok && sa.id in s.subaccounts
    ensures o.reply.Err? ==> o.reply.error == FailureKind(s, NotFound) && o.next == s
    ensures o.reply.Ok? ==> o.reply.value == sa && sa.id in o.next.subaccounts && o.next.subaccounts[sa.id] == sa
    ensures o.next.subaccounts.Keys == s.subaccounts.Keys
    ensures forall k :: k in s.subaccounts && k != sa.id ==> o.next.subaccounts[k] == s.subaccounts[k]
    ensures o.next == s.(subaccounts := o.next.subaccounts)
  {
    if !s.ok then Step(s, Err(Unavailable))
    else if sa.id !in s.subaccounts then Step(s, Err(NotFound))
    else Step(s.(subaccounts := s.subaccounts[sa.id := sa]), Ok(sa))
  }

  function AddSubaccount<C>(s: State<C>, sa: Subaccount): (o: Step<C, Subaccount>)
    ensures o.reply.Ok? <==> s.ok && sa.id !in s.subaccounts
    ensures o.reply.Err? ==> o.reply.error == FailureKind(s, AlreadyExists) && o.next == s
    ensures o.reply.Ok? ==> o.reply.value == sa && sa.id in o.next.subaccounts && o.next.subaccounts[sa.id] == sa
    ensures o.reply.Ok? ==> o.next.subaccounts.Keys == s.subaccounts.Keys + {sa.id}
    ensures forall k :: k in s.subaccounts ==> k in o.next.subaccounts && o.next.subaccounts[k] == s.subaccounts[k]
    ensures o.next == s.(subaccounts := o.next.subaccounts)
  {
    if !s.ok then Step(s, Err(Unavailable))
    else if sa.id in s.subaccounts then Step(s, Err(AlreadyExists))
    else Step(s.(subaccounts := s.subaccounts[sa.id := sa]), Ok(sa))
  }

  function TemplateInfo<C>(s: State<C>, name: string): (r: Result<Template>)
    ensures r.Ok? <==> s.ok && name in s.templates
    ensures r.Ok? ==> r.value == s.templates[name]
    ensures r.Err? ==> r.error == FailureKind(s, NotFound)
  {
    if !s.ok then Err(Unavailable)
    else if name !in s.templates then Err(NotFound)
    else Ok(s.templates[name])
  }

  function DeleteTemplate<C>(s: State<C>, name: string): (o: Step<C, Template>)
    ensures o.reply.Ok? <==> s.ok && name in s.templates
    ensures o.reply.Err? ==> o.reply.error == FailureKind(s, NotFound) && o.next == s
    ensures o.reply.Ok? ==> o.reply.value == s.templates[name]
    ensures o.reply.Ok? ==> o.next.templates.Keys == s.templates.Keys - {name}
    ensures forall k :: k in o.next.templates ==> k in s.templates && o.next.templates[k] == s.templates[k]
    ensures o.next == s.(templates := o.next.templates)
  {
    if !s.ok then Step(s, Err(Unavailable))
    else if name !in s.templates then Step(s, Err(NotFound))
    else Step(s.(templates := s.templates - {name}), Ok(s.templates[name]))
  }

  function UpdateTemplate<C>(s: State<C>, t: Template): (o: Step<C, Template>)
    ensures o.reply.Ok? <==> s.ok && t.key in s.templates
    ensures o.reply.Err? ==> o.reply.error == FailureKind(s, NotFound) && o.next == s
    ensures o.reply.Ok? ==> o.reply.value == t && t.key in o.next.templates && o.next.templates[t.key] == t
    ensures o.next.templates.Keys == s.templates.Keys
    ensures forall k :: k in s.templates && k != t.key ==> o.next.templates[k] == s.templates[k]
    ensures o.next == s.(templates := o.next.templates)
  {
    if !s.ok then Step(s, Err(Unavailable))
    else if t.key !in s.templates then Step(s, Err(NotFound))
    else Step(s.(templates := s.templates[t.key := t]), Ok(t))
  }

  function AddTemplate<C>(s: State<C>, t: Template): (o: Step<C, Template>)
    ensures o.reply.Ok? <==> s.ok && t.key !in s.templates
    ensures o.reply.Err? ==> o.reply.error == FailureKind(s, AlreadyExists) && o.next == s
    ensures o.reply.Ok? ==> o.reply.value == t && t.key in o.next.templates && o.next.templates[t.key] == t
    ensures o.reply.Ok? ==> o.next.templates.Keys == s.templates.Keys + {t.key}
    ensures forall k :: k in s.templates ==> k in o.next.templates && o.next.templates[k] == s.templates[k]
    ensures o.next == s.(templates := o.next.templates)
  {
    if !s.ok then Step(s, Err(Unavailable))
    else if t.key in s.templates then Step(s, Err(AlreadyExists))
    else Step(s.(templates := s.templates[t.key := t]), Ok(t))
  }

  // Properties relating two calls.

  /** A template that was just added is what a lookup of its key returns. */
  lemma AddThenTemplateInfo<C>(s: State<C>, t: Template)
    requires AddTemplate(s, t).reply.Ok?
    ensures TemplateInfo(AddTemplate(s, t).next, t.key) == Ok(t)
  {
  }

  /** A subaccount that was just added is what a lookup of its id returns. */
  lemma AddThenSubaccountInfo<C>(s: State<C>, sa: Subaccount)
    requires AddSubaccount(s, sa).reply.Ok?
    ensures SubaccountInfo(AddSubaccount(s, sa).next, sa.id) == Ok(sa)
  {
  }

  /** Deleting a template that was just added hands it back and restores the state before the add. */
  lemma AddThenDeleteTemplate<C>(s: State<C>, t: Template)
    requires AddTemplate(s, t).reply.Ok?
    ensures DeleteTemplate(AddTemplate(s, t).next, t.key) == Step(s, Ok(t))
  {
  }

  /** Deleting a subaccount that was just added hands it back and restores the state before the add. */
  lemma AddThenDeleteSubaccount<C>(s: State<C>, sa: Subaccount)
    requires AddSubaccount(s, sa).reply.Ok?
    ensures DeleteSubaccount(AddSubaccount(s, sa).next, sa.id) == Step(s, Ok(sa))
  {
  }

  /** Once a template is deleted, looking it up, updating it or deleting it again fails with NotFound. */
  lemma DeleteThenTemplateGone<C>(s: State<C>, name: string, t: Template)
    requires DeleteTemplate(s, name).reply.Ok?
    requires t.key == name
    ensures TemplateInfo(DeleteTemplate(s, name).next, name) == Err(NotFound)
    ensures UpdateTemplate(DeleteTemplate(s, name).next, t).reply == Err(NotFound)
    ensures DeleteTemplate(DeleteTemplate(s, name).next, name).reply == Err(NotFound)
  {
  }

  /** After a successful update the lookup returns the new value, and a second identical update changes nothing more. */
  lemma UpdateThenSubaccountInfo<C>(s: State<C>, sa: Subaccount)
    requires UpdateSubaccount(s, sa).reply.Ok?
    ensures SubaccountInfo(UpdateSubaccount(s, sa).next, sa.id) == Ok(sa)
    ensures UpdateSubaccount(UpdateSubaccount(s, sa).next, sa) == UpdateSubaccount(s, sa)
  {
  }

  /** With the service up, an absent id fails lookup, delete and update with NotFound, leaving the state alone. */
  lemma MissingSubaccountNotFound<C>(s: State<C>, sa: Subaccount)
    requires s.ok && sa.id !in s.subaccounts
    ensures SubaccountInfo(s, sa.id) == Err(NotFound)
    ensures DeleteSubaccount(s, sa.id) == Step(s, Err(NotFound))
    ensures UpdateSubaccount(s, sa) == Step(s, Err(NotFound))
  {
  }
}
