# CODAP data-interactive command handler, modelled in Dafny

This project models two pieces of CODAP.

The first is `DG.DataInteractivePhoneHandler`. This is the host side of the message protocol that an embedded data interactive (a plugin) uses:

- **Router (`doCommand`).** It reads the resource type from `what.type` and looks it up in the handler map that `init` builds. It runs the handler it finds. The reply callback then receives the handler's result, or `{success: false}` when the type is unknown or the handler returned nothing.
- **Data-context handler.** The model holds at most one data context. `create` is refused while one exists. `update` rewrites only `identifier`, `title` and `description`, and only those whose payload value is truthy. `get` does nothing. `delete` destroys the context and empties the slot.
- **Interactive-frame handler.** It always replies `{success: true}` and changes nothing.
- **Dirty-state counters.** `changeCount` and `savedChangeCount` say whether the document has unsaved changes.

The second is the flag logic of `DG.TwoDLineModel`, the movable line on a graph:

- the intercept lock, which puts the intercept at 0 when set;
- the lazy-recompute flag;
- the defaults set by `init`;
- the lock's round trip through document storage.

Layout:

- `wrappers.dfy`: module `Wrappers`, an `Option` type that stands for `null`/`undefined`.
- `phone_handler.dfy`: module `PhoneHandler`.
  - A pure layer: messages, the data-context state machine `DataContextStep`, and the router functions `RouteAsWritten` and `Route`.
  - The classes `DataContext`, `DataInteractiveModel` and `DataInteractivePhoneHandler`. Their methods update fields in place, and their `ensures` tie the new state to the pure layer. The update's `forEach` is a loop whose invariant is the fold `UpdateProps`.
- `twod_line_model.dfy`: module `TwoDLine`.
  - A value `LineState` with pure transitions (`Initial`, `SetLock`, `Toggle`, `Storage`).
  - The class `TwoDLineModel`, whose methods are proved against those transitions.

Exceptions that the JavaScript throws are modelled explicitly:

- `Completion.Threw` is a handler that threw.
- `Dispatch.threw` is an exception escaping `doCommand`.
- `Dispatch.replies` lists every value passed to the reply callback.

Collaborators the core cannot see become parameters:

- `created` is what `createNewDataContext` returns.
- `after` is the state the slope/intercept recomputation leaves.

Three behaviours of the code that a reader may not expect, all modelled as written:

- An `update` of an existing context replies `{success: false}`. `success` starts out false (line 149) and that branch never sets it.
- A `delete` with no context calls `destroy()` on null. The handler throws, the `finally` still replies `{success: false}`, and the exception escapes `doCommand`. Nothing catches it.
- `destroy` clears `model.content` (line 64), not the `context` slot. The model keeps the slot as it was.

## Model

| member | source | states |
|---|---|---|
| `PhoneHandler.RouteAsWritten` | apps/dg/components/data_interactive/data_interactive_phone_handler.js:68-81 | A message without `what` throws and gets no reply. Every other message is handled exactly as `Route` handles it. |
| `PhoneHandler.Route` | apps/dg/components/data_interactive/data_interactive_phone_handler.js:68-81 | The callback runs exactly once. A missing, empty or unregistered type gives `{success: false}` whatever the handlers would do. A truthy handler result is passed through; a falsy one becomes `{success: false}`. An exception escapes only when the selected handler threw. |
| `PhoneHandler.MessageWithoutWhatIsNotAnswered` | apps/dg/components/data_interactive/data_interactive_phone_handler.js:70-72 | `{action: 'get'}` with no `what` gets no reply as written, and gets one `{success: false}` from the corrected router. |
| `PhoneHandler.UpdatePropsLaw` | apps/dg/components/data_interactive/data_interactive_phone_handler.js:167-171 | After the `forEach` over any list of names, a field whose name is listed and whose payload value is truthy holds that value. Every other field, and the collections, keep their old values. |
| `PhoneHandler.ApplyUpdate` | apps/dg/components/data_interactive/data_interactive_phone_handler.js:161-172 | The update rewrites each of `identifier`, `title` and `description` only when its payload value is truthy. Every other field keeps its value, and the collections never change. |
| `PhoneHandler.ApplyUpdateIdempotent` | apps/dg/components/data_interactive/data_interactive_phone_handler.js:167-171 | Applying the same update twice has the same effect as applying it once. |
| `PhoneHandler.DataContextStep` | apps/dg/components/data_interactive/data_interactive_phone_handler.js:148-181 | The handler never returns a falsy value. It succeeds exactly for a create on an empty slot that the collaborator answered. It throws exactly when deleting with no context, or updating a context with no payload. Create never replaces an existing context; create on an empty slot stores the collaborator's answer. Update rewrites the context by `ApplyUpdate`. Delete empties the slot. `get` and unknown actions leave the slot alone. |
| `PhoneHandler.CreateCreateDeleteUpdate` | apps/dg/components/data_interactive/data_interactive_phone_handler.js:151-179 | Create, create, delete, update on an empty slot replies success, then failure with the first context kept, then failure with the slot emptied, then failure. |
| `PhoneHandler.DataContext.Set` | apps/dg/components/data_interactive/data_interactive_phone_handler.js:169 | Writes the named field only. |
| `PhoneHandler.DataContext.Destroy` | apps/dg/components/data_interactive/data_interactive_phone_handler.js:177 | Marks the context destroyed. Its fields are unchanged. |
| `PhoneHandler.DataInteractivePhoneHandler.constructor` | apps/dg/components/data_interactive/data_interactive_phone_handler.js:37-58 | The handler map holds exactly the frame and data-context handlers. Both counters start at 0, so there are no unsaved changes. |
| `PhoneHandler.DataInteractivePhoneHandler.UpdateSavedChangeCount` | apps/dg/components/data_interactive/data_interactive_phone_handler.js:88-98 | Afterwards the saved count equals the unchanged change count, so `HasUnsavedChanges` (more changes counted than saved) is false. |
| `PhoneHandler.DataInteractivePhoneHandler.Destroy` | apps/dg/components/data_interactive/data_interactive_phone_handler.js:63-66 | Clears `model.content` and leaves the context slot as it was. |
| `PhoneHandler.DataInteractivePhoneHandler.HandleInteractiveFrame` | apps/dg/components/data_interactive/data_interactive_phone_handler.js:114-129 | Changes nothing and always replies `{success: true}`. |
| `PhoneHandler.DataInteractivePhoneHandler.HandleDataContext` | apps/dg/components/data_interactive/data_interactive_phone_handler.js:148-181 | The new slot contents and the completion are those of `DataContextStep`. The slot points at the collaborator's object after a create on an empty slot, at null after a delete, and otherwise at the old context. A deleted context is destroyed, and no other action destroys it. `model.content` is not touched. |
| `PhoneHandler.DataInteractivePhoneHandler.DoCommand` | apps/dg/components/data_interactive/data_interactive_phone_handler.js:68-81 | The callback values and the escaping exception are those of `RouteAsWritten` over the two handlers. Only the data-context handler changes the slot: its contents as `DataContextStep` says, holding the collaborator's object after a create on an empty slot, null after a delete, and otherwise the same object. The old context is destroyed exactly when a routed `delete` found it. `model.content` is not touched. |
| `TwoDLine.Initial` | apps/dg/components/graph/adornments/twoD_line_model.js:110-117 | After `init`: the slope is 1, the line is not vertical, there is no x-intercept, the intercept is unlocked (and still null), and a recompute is pending. |
| `TwoDLine.SetLock` | apps/dg/components/graph/adornments/twoD_line_model.js:68-75 | Undefined changes nothing. `true` records the lock and puts the intercept at 0. `false` records the unlock and keeps the intercept. Any value given leaves a locked intercept at the origin. |
| `TwoDLine.Toggle` | apps/dg/components/graph/adornments/twoD_line_model.js:80-82 | Negates the lock. A locked result has its intercept at 0; an unlocked one keeps the intercept. Nothing else changes. |
| `TwoDLine.ToggleTwice` | apps/dg/components/graph/adornments/twoD_line_model.js:80-82 | Toggling twice restores the lock and leaves the intercept at 0. |
| `TwoDLine.RestoreStorageRoundTrip` | apps/dg/components/graph/adornments/twoD_line_model.js:155-169 | Restoring a stored line's storage into any model gives it the stored lock. Restoring into the same model changes nothing while a locked intercept is at the origin. |
| `TwoDLine.TwoDLineModel.constructor` | apps/dg/components/graph/adornments/twoD_line_model.js:110-117 | The new model is in the `Initial` state. |
| `TwoDLine.TwoDLineModel.IsInterceptLocked` | apps/dg/components/graph/adornments/twoD_line_model.js:68-75 | The new state is `SetLock` of the old one. The value returned is the lock afterwards: the value set, or for a read the unchanged lock. |
| `TwoDLine.TwoDLineModel.ToggleInterceptLocked` | apps/dg/components/graph/adornments/twoD_line_model.js:80-82 | The new state is `Toggle` of the old one. |
| `TwoDLine.TwoDLineModel.SetComputingNeeded` | apps/dg/components/graph/adornments/twoD_line_model.js:97-99 | Sets the pending flag and nothing else. A recompute is then due exactly when the line is visible. |
| `TwoDLine.TwoDLineModel.RecomputeSlopeAndInterceptIfNeeded` | apps/dg/components/graph/adornments/twoD_line_model.js:123-133 | The recompute step runs exactly when `IsComputingNeeded` held, that is when a recompute was pending and the line was visible. The state is then what the step leaves, except that the superclass's `isVisible` is kept. Otherwise the state is unchanged. |
| `TwoDLine.TwoDLineModel.CreateStorage` | apps/dg/components/graph/adornments/twoD_line_model.js:155-161 | Restoring the stored object into any model gives that model this model's lock. Restoring it into this model changes nothing while a locked intercept is at the origin. |
| `TwoDLine.TwoDLineModel.RestoreStorage` | apps/dg/components/graph/adornments/twoD_line_model.js:166-169 | The new state is `SetLock` with the stored value. A stored object without the property changes nothing. |

## Findings

| source | as written | input that shows it | evidently intended | confidence | as-written member | corrected member |
|---|---|---|---|---|---|---|
| apps/dg/components/data_interactive/data_interactive_phone_handler.js:70 | `iMessage.what.type` is read before the `try`. A message without `what` throws a TypeError, and the callback is never called. | `{action: 'get'}` (no `what`) | A message without `what` is treated like one with an unknown type: one `{success: false}` reply. | medium, not executed | `PhoneHandler.RouteAsWritten` (shown by `PhoneHandler.MessageWithoutWhatIsNotAnswered`) | `PhoneHandler.Route` |

The class method `DoCommand` follows the code as written. The corrected `Route` is proved to reply exactly once on every input. `RouteAsWritten`'s contract shows that the two agree on every message that has `what`.

## Left out

- `createNewDataContext` (line 157) is an external collaborator. Its answer is the parameter `created`. The way it reads the payload, and any exception it throws, are not modelled.
- The teardown that `context.destroy()` performs is not modelled. `DataContext.Destroy` only records that it happened.
- Logging is not modelled (`DG.log`, `DG.logWarn` and `JSON.stringify` at lines 69, 76, 154 and 164). A `JSON.stringify` that throws on a cyclic message at line 69 is not modelled either.
- The commented-out frame `create` closure (lines 116-121) is never called, and the empty `dispatchCommand` stub (lines 101-102) does nothing. Neither is modelled.
- The handler map is looked up by its own keys only. Names inherited from `Object.prototype`, such as `toString`, would find a function in JavaScript; they are not modelled.
- Handlers receive the callback but never call it, so the model does not pass it to them.
- Payload values are modelled as strings, with truthy meaning non-empty. Numbers and objects in the payload are not modelled. A lock value other than a boolean is not modelled either.
- `changeCount` is incremented by the host's change notifications, which are outside this file. The model has no increment operation, so "unsaved changes after a mutation" is not stated.
- `isVisible` is a superclass property. It is a constructor parameter here and never changes.
- TwoDLine.TwoDLineModel.RecomputeSlopeAndInterceptIfNeeded: `recomputeSlopeAndIntercept` is not part of this model, because its axis geometry is not shown. The stand-in `RecomputeSlopeAndIntercept` takes the whole state it leaves from the caller. The model therefore says nothing about the new slope and intercept, the pending flag, or whether a locked intercept stays at 0.
- `getCoordinates` (lines 138-153) is not modelled. It needs floating-point `isFinite` checks and case objects that are not shown.
- The superclass calls (`sc_super()`) are not modelled: the teardown in `destroy` (line 65), and the storage fields in `createStorage` and `restoreStorage`.
- The state before `init` runs, when slope and lock are still null, is not modelled. The constructor is `init`.
- apps/dg/utilities/storage/codap_common_storage.js is not part of this model. It is an HTTP/JSON request wrapper around library objects.
