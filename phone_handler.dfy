/**
 * DG.DataInteractivePhoneHandler: the host side of the message protocol of a
 * data interactive (a plugin).  A message names a resource type in `what.type`;
 * the router picks the handler registered for it, and the reply callback gets
 * the handler's result.  The data-context handler keeps at most one context in
 * the model's `context` slot; the interactive-frame handler changes nothing.
 * Two counters record whether the document has unsaved changes.
 *
 * The pure part (messages, the data-context state machine, the router) comes
 * first; the classes at the end hold the state the source updates in place and
 * are proved against it.
 */
module PhoneHandler {
  import opened Wrappers

  // ---------------------------------------------------------------------------
  // Messages and replies
  // ---------------------------------------------------------------------------

  /** The `what` object of a message; `resourceType` is `what.type`, None when undefined. */
  datatype What = What(resourceType: Option<string>)

  /** An inbound message.  `what` and `value` are None when undefined or null;
      payload properties are modelled as strings. */
  datatype Message = Message(action: string, what: Option<What>, value: Option<map<string, string>>)

  /** The reply object `{success: ...}`. */
  datatype Reply = Reply(success: bool)

  /** How a call into a handler ended: it returned (None stands for a falsy or
      undefined return value), or it threw. */
  datatype Completion = Returned(result: Option<Reply>) | Threw

  /** What one `doCommand` call shows at its boundary: every value passed to the
      reply callback, in order, and whether an exception escaped. */
  datatype Dispatch = Dispatch(replies: seq<Reply>, threw: bool)

  /** The handlers `init` registers. */
  datatype HandlerKind = InteractiveFrame | DataContextHandler

  /** The default result `{success: false}`. */
  const Failure := Reply(false)

  /** The handler map built once by `init`. */
  const HandlerMap: map<string, HandlerKind> :=
    map["interactiveFrame" := InteractiveFrame, "dataContext" := DataContextHandler]

  /** JavaScript truthiness of an optional string: defined and not empty. */
  predicate Truthy(s: Option<string>)
  {
    s.Some? && s.value != ""
  }

  // ---------------------------------------------------------------------------
  // Router
  // ---------------------------------------------------------------------------

  /** `type && this.handlerMap[type]`: the handler chosen for a resource type. */
  function Lookup(handlers: map<string, HandlerKind>, t: Option<string>): Option<HandlerKind>
  {
    if Truthy(t) && t.value in handlers then Some(handlers[t.value]) else None
  }

  /** The handler a message selects; a message without `what` selects none. */
  function Selected(handlers: map<string, HandlerKind>, m: Message): Option<HandlerKind>
  {
    if m.what.None? then None else Lookup(handlers, m.what.value.resourceType)
  }

  /** The value handed to the callback once a handler has run: its result, or
      `{success: false}` when it returned a falsy value or threw (the initial
      value of `result` is then never overwritten). */
  function Settle(c: Completion): Reply
  {
    match c
    case Returned(Some(x)) => x
    case _ => Failure
  }

  /** `doCommand` as written: `iMessage.what.type` is read before the `try`, so a
      message without `what` throws and the callback is never called.  `run`
      gives the completion of each handler. */
  function RouteAsWritten(handlers: map<string, HandlerKind>, m: Message, run: HandlerKind -> Completion): (d: Dispatch)
    ensures m.what.None? ==> d == Dispatch([], true)
    ensures m.what.Some? ==> d == Route(handlers, m, run)
  {
    match m.what
    case None => Dispatch([], true)
    case Some(w) =>
      match Lookup(handlers, w.resourceType)
      case None => Dispatch([Failure], false)
      case Some(k) => Dispatch([Settle(run(k))], run(k).Threw?)
  }

  /** The router with a missing `what` treated like a missing type: the callback
      is called exactly once on every path; an unknown or missing type gives
      `{success: false}` whatever the handlers would do; a handler's truthy
      result is passed through, anything else becomes `{success: false}`; and
      an exception escapes only from a handler that threw. */
  function Route(handlers: map<string, HandlerKind>, m: Message, run: HandlerKind -> Completion): (d: Dispatch)
    ensures |d.replies| == 1
    ensures Selected(handlers, m).None? ==> d == Dispatch([Failure], false)
    ensures forall r :: Selected(handlers, m).Some? && run(Selected(handlers, m).value) == Returned(Some(r))
                        ==> d == Dispatch([r], false)
    ensures Selected(handlers, m).Some? && run(Selected(handlers, m).value) == Returned(None)
            ==> d == Dispatch([Failure], false)
    ensures d.threw <==> Selected(handlers, m).Some? && run(Selected(handlers, m).value).Threw?
    ensures d.replies[0].success ==> Selected(handlers, m).Some? && run(Selected(handlers, m).value) == Returned(Some(d.replies[0]))
  {
    match Selected(handlers, m)
    case None => Dispatch([Failure], false)
    case Some(k) => Dispatch([Settle(run(k))], run(k).Threw?)
  }

  /** A message without `what` (say `{action: 'get'}`) gets no reply from the
      router as written, and exactly one `{success: false}` from the corrected one. */
  lemma MessageWithoutWhatIsNotAnswered(run: HandlerKind -> Completion)
    ensures RouteAsWritten(HandlerMap, Message("get", None, None), run).replies == []
    ensures Route(HandlerMap, Message("get", None, None), run) == Dispatch([Failure], false)
  {
  }

  // ---------------------------------------------------------------------------
  // Data-context fields and the partial update
  // ---------------------------------------------------------------------------

  /** The top-level properties of a data context. */
  datatype ContextFields = ContextFields(identifier: string, title: string, description: string, collections: seq<string>)

  /** The properties an `update` may rewrite, in the order the source visits them. */
  const UpdatableProps: seq<string> := ["identifier", "title", "description"]

  /** `iMessage.value[prop]` is truthy. */
  predicate TruthyProp(value: map<string, string>, prop: string)
  {
    prop in value && value[prop] != ""
  }

  /** `context.set(prop, v)` on the modelled fields; any other name touches none of them. */
  function SetField(f: ContextFields, prop: string, v: string): ContextFields
  {
    if prop == "identifier" then f.(identifier := v)
    else if prop == "title" then f.(title := v)
    else if prop == "description" then f.(description := v)
    else f
  }

  /** The `forEach` over `props`: each property whose payload value is truthy is
      written, one after the other. */
  function UpdateProps(f: ContextFields, value: map<string, string>, props: seq<string>): ContextFields
    decreases |props|
  {
    if props == [] then f
    else
      var g := UpdateProps(f, value, props[..|props| - 1]);
      var p := props[|props| - 1];
      if TruthyProp(value, p) then SetField(g, p, value[p]) else g
  }

  /** The field-by-field law of the update: a field named in `props` whose
      payload value is truthy takes that value, every other field keeps its own. */
  ghost predicate RewrittenFrom(f: ContextFields, g: ContextFields, value: map<string, string>, props: seq<string>)
  {
    && g.identifier == (if "identifier" in props && TruthyProp(value, "identifier") then value["identifier"] else f.identifier)
    && g.title == (if "title" in props && TruthyProp(value, "title") then value["title"] else f.title)
    && g.description == (if "description" in props && TruthyProp(value, "description") then value["description"] else f.description)
    && g.collections == f.collections
  }

  lemma {:induction false} UpdatePropsLaw(f: ContextFields, value: map<string, string>, props: seq<string>)
    ensures RewrittenFrom(f, UpdateProps(f, value, props), value, props)
    decreases |props|
  {
    if props != [] {
      var init := props[..|props| - 1];
      UpdatePropsLaw(f, value, init);
      assert props == init + [props[|props| - 1]];
    }
  }

  /** The update of lines 167-171: only `identifier`, `title` and `description`
      change, each only when its payload value is truthy; the collections never do. */
  function ApplyUpdate(f: ContextFields, value: map<string, string>): (g: ContextFields)
    ensures g.identifier == if TruthyProp(value, "identifier") then value["identifier"] else f.identifier
    ensures g.title == if TruthyProp(value, "title") then value["title"] else f.title
    ensures g.description == if TruthyProp(value, "description") then value["description"] else f.description
    ensures g.collections == f.collections
  {
    UpdatePropsLaw(f, value, UpdatableProps);
    UpdateProps(f, value, UpdatableProps)
  }

  /** Sending the same update twice has the effect of sending it once. */
  lemma ApplyUpdateIdempotent(f: ContextFields, value: map<string, string>)
    ensures ApplyUpdate(ApplyUpdate(f, value), value) == ApplyUpdate(f, value)
  {
  }

  // ---------------------------------------------------------------------------
  // The data-context state machine
  // ---------------------------------------------------------------------------

  /** The slot after a handler call, and how the call ended. */
  datatype Handled = Handled(slot: Option<ContextFields>, completion: Completion)

  /** `handleDataContext` over the single optional context slot.  `created` is
      what the document controller's `createNewDataContext` returns (None for null). */
  function DataContextStep(slot: Option<ContextFields>, m: Message, created: Option<ContextFields>): (h: Handled)
    // the handler always returns an object, never a falsy value
    ensures h.completion != Returned(None)
    // the only success is a create on an empty slot that the collaborator answered
    ensures h.completion == Returned(Some(Reply(true))) <==> m.action == "create" && slot.None? && created.Some?
    // it throws exactly when deleting no context, or updating one with no payload
    ensures h.completion == Threw <==>
              (m.action == "delete" && slot.None?) || (m.action == "update" && slot.Some? && m.value.None?)
    // at most one context: a create never replaces the one there
    ensures m.action == "create" && slot.Some? ==> h.slot == slot
    ensures m.action == "create" && slot.None? ==> h.slot == created
    ensures m.action == "update" && slot.Some? && m.value.Some? ==> h.slot == Some(ApplyUpdate(slot.value, m.value.value))
    ensures m.action == "update" && (slot.None? || m.value.None?) ==> h.slot == slot
    ensures m.action == "delete" ==> h.slot == None
    // `get` and any other action leave the slot alone
    ensures m.action !in {"create", "update", "delete"} ==> h.slot == slot
  {
    if m.action == "create" then
      if slot.Some? then Handled(slot, Returned(Some(Failure)))
      else Handled(created, Returned(Some(Reply(created.Some?))))
    else if m.action == "update" then
      if slot.None? then Handled(slot, Returned(Some(Failure)))
      else if m.value.None? then Handled(slot, Threw)
      else Handled(Some(ApplyUpdate(slot.value, m.value.value)), Returned(Some(Failure)))
    else if m.action == "get" then
      Handled(slot, Returned(Some(Failure)))
    else if m.action == "delete" then
      if slot.None? then Handled(slot, Threw)
      else Handled(None, Returned(Some(Failure)))
    else
      Handled(slot, Returned(Some(Failure)))
  }

  /** A second create without a delete in between is refused and keeps the first
      context; after a delete the slot is empty and an update is refused. */
  lemma CreateCreateDeleteUpdate(first: ContextFields, second: Option<ContextFields>, payload: map<string, string>)
    ensures var h1 := DataContextStep(None, Message("create", Some(What(Some("dataContext"))), Some(payload)), Some(first));
            var h2 := DataContextStep(h1.slot, Message("create", Some(What(Some("dataContext"))), Some(payload)), second);
            var h3 := DataContextStep(h2.slot, Message("delete", Some(What(Some("dataContext"))), None), None);
            var h4 := DataContextStep(h3.slot, Message("update", Some(What(Some("dataContext"))), Some(payload)), None);
            && h1 == Handled(Some(first), Returned(Some(Reply(true))))
            && h2 == Handled(Some(first), Returned(Some(Failure)))
            && h3 == Handled(None, Returned(Some(Failure)))
            && h4 == Handled(None, Returned(Some(Failure)))
  {
  }

  /** The completion of each registered handler on a given slot and message. */
  function Run(k: HandlerKind, slot: Option<ContextFields>, m: Message, created: Option<ContextFields>): Completion
  {
    match k
    case InteractiveFrame => Returned(Some(Reply(true)))
    case DataContextHandler => DataContextStep(slot, m, created).completion
  }

  function Handlers(slot: Option<ContextFields>, m: Message, created: Option<ContextFields>): HandlerKind -> Completion
  {
    k => Run(k, slot, m, created)
  }

  // ---------------------------------------------------------------------------
  // Objects updated in place
  // ---------------------------------------------------------------------------

  /** A data context.  Its fields are rewritten in place by `update`. */
  class DataContext {
    var identifier: string
    var title: string
    var description: string
    var collections: seq<string>
    var isDestroyed: bool

    function Fields(): ContextFields
      reads this
    {
      ContextFields(identifier, title, description, collections)
    }

    /** `context.set(prop, v)`. */
    method Set(prop: string, v: string)
      modifies this
      ensures Fields() == SetField(old(Fields()), prop, v)
      ensures isDestroyed == old(isDestroyed)
    {
      if prop == "identifier" {
        identifier := v;
      } else if prop == "title" {
        title := v;
      } else if prop == "description" {
        description := v;
      }
    }

    /** `context.destroy()`: the teardown itself is not modelled, only that it happened. */
    method Destroy()
      modifies this
      ensures isDestroyed
      ensures Fields() == old(Fields())
    {
      isDestroyed := true;
    }
  }

  /** The fields of a possibly null context. */
  function View(c: DataContext?): Option<ContextFields>
    reads c
  {
    if c == null then None else Some(c.Fields())
  }

  /** The data interactive's model: the `context` slot, and `content`, which
      `destroy` clears. */
  class DataInteractiveModel {
    var context: DataContext?
    var content: object?
  }

  class DataInteractivePhoneHandler {
    const model: DataInteractiveModel
    const handlerMap: map<string, HandlerKind>
    /** The total number of document-dirtying changes. */
    var changeCount: int
    /** The number of those changes that have been saved. */
    var savedChangeCount: int

    /** `init`: registers the two handlers; both counters start at 0. */
    constructor (model: DataInteractiveModel)
      ensures this.model == model && handlerMap == HandlerMap
      ensures changeCount == 0 && savedChangeCount == 0 && !HasUnsavedChanges()
    {
      this.model := model;
      handlerMap := HandlerMap;
      changeCount := 0;
      savedChangeCount := 0;
    }

    /** The fields of the context in the model's slot, if any. */
    function Slot(): Option<ContextFields>
      reads model, model.context
    {
      View(model.context)
    }

    /** The document has unsaved changes exactly when more changes were counted than saved. */
    predicate HasUnsavedChanges()
      reads this
    {
      changeCount > savedChangeCount
    }

    /** Called when a save occurs: the saved count catches up with the total. */
    method UpdateSavedChangeCount()
      modifies this`savedChangeCount
      ensures savedChangeCount == changeCount == old(changeCount)
      ensures !HasUnsavedChanges()
    {
      savedChangeCount := changeCount;
    }

    /** `destroy`: clears `model.content`; the context slot is not touched. */
    method Destroy()
      modifies model`content
      ensures model.content == null
      ensures model.context == old(model.context)
    {
      model.content := null;
    }

    /** The interactive-frame handler: whatever the action, nothing changes and
        the reply is `{success: true}`. */
    method HandleInteractiveFrame(m: Message) returns (r: Reply)
      ensures r == Reply(true)
    {
      match m.action {
        case "create" =>
        case _ =>
      }
      r := Reply(true);
    }

    /** The data-context handler, proved against `DataContextStep`.  `created`
        is the document controller's answer to `createNewDataContext`. */
    method HandleDataContext(m: Message, created: DataContext?) returns (c: Completion)
      modifies model`context, model.context
      ensures Handled(Slot(), c) == DataContextStep(old(Slot()), m, old(View(created)))
      ensures model.context ==
                if m.action == "create" && old(model.context) == null then created
                else if m.action == "delete" then null
                else old(model.context)
      ensures old(model.context) != null ==>
                old(model.context).isDestroyed == (old(model.context.isDestroyed) || m.action == "delete")
    {
      var success := false;
      var context: DataContext?;
      if m.action == "create" {
        context := model.context;
        if context != null {
          success := false;
        } else {
          context := created;
          model.context := context;
          success := context != null;
        }
      } else if m.action == "update" {
        context := model.context;
        if context == null {
          success := false;
        } else {
          if m.value.None? {
            // `iMessage.value[prop]` on an undefined payload
            return Threw;
          }
          var value := m.value.value;
          ghost var before := context.Fields();
          for i := 0 to |UpdatableProps|
            invariant model.context == context
            invariant context.isDestroyed == old(context.isDestroyed)
            invariant context.Fields() == UpdateProps(before, value, UpdatableProps[..i])
          {
            var prop := UpdatableProps[i];
            assert UpdatableProps[..i + 1][..i] == UpdatableProps[..i];
            if TruthyProp(value, prop) {
              context.Set(prop, value[prop]);
            }
          }
          assert UpdatableProps[..|UpdatableProps|] == UpdatableProps;
        }
      } else if m.action == "get" {
        // not implemented in the source: the default result stands
      } else if m.action == "delete" {
        context := model.context;
        if context == null {
          // `context.destroy()` on null
          return Threw;
        }
        context.Destroy();
        model.context := null;
      }
      c := Returned(Some(Reply(success)));
    }

    /** `doCommand`, as written: the callback receives the settled result once,
        in the `finally`, and an exception from the handler still escapes; a
        message without `what` throws before the `try` and gets no reply. */
    method DoCommand(m: Message, created: DataContext?) returns (replies: seq<Reply>, threw: bool)
      modifies model`context, model.context
      ensures Dispatch(replies, threw) == RouteAsWritten(handlerMap, m, Handlers(old(Slot()), m, old(View(created))))
      ensures Selected(handlerMap, m) == Some(DataContextHandler) ==>
                Slot() == DataContextStep(old(Slot()), m, old(View(created))).slot
      ensures Selected(handlerMap, m) == Some(DataContextHandler) ==>
                model.context ==
                  if m.action == "create" && old(model.context) == null then created
                  else if m.action == "delete" then null
                  else old(model.context)
      ensures Selected(handlerMap, m) != Some(DataContextHandler) ==>
                model.context == old(model.context) && Slot() == old(Slot())
      ensures old(model.context) != null ==>
                old(model.context).isDestroyed ==
                  (old(model.context.isDestroyed) || (Selected(handlerMap, m) == Some(DataContextHandler) && m.action == "delete"))
    {
      if m.what.None? {
        // `iMessage.what.type` throws outside the try block
        return [], true;
      }
      var t := m.what.value.resourceType;
      var result := Failure;
      threw := false;
      match Lookup(handlerMap, t) {
        case None =>
          // logged as an unknown message type
        case Some(InteractiveFrame) =>
          var r := HandleInteractiveFrame(m);
          result := r;
        case Some(DataContextHandler) =>
          var c := HandleDataContext(m, created);
          if c.Threw? {
            threw := true;
          } else {
            result := if c.result.Some? then c.result.value else Failure;
          }
      }
      // the `finally` block: `iCallback(result)`
      replies := [result];
    }
  }
}
