# LibrePCB core: signals, notifications, a change-notifying record, the Excellon writer and the pinned-row comparator

This project models five small pieces of sequential logic from LibrePCB in Dafny
and proves what each one promises.

- **SignalSlot** (`signalslot.dfy`) covers `Signal` and `Slot`.
  - Signals and slots are integer handles in one `Registry` object.
  - The registry holds two maps: each live signal's set of attached slots (`mSlots`), and each live slot's set of signals (`mSignals`).
  - The invariant `Mirrored` says every pointer held refers to a live peer, and a signal holds a slot exactly when the slot holds the signal.
  - `attach`, `detach`, both destructors and `notify` are methods.
  - Each state-changing method is tied to a pure transition function on the `Links` value, and those functions carry the properties.
- **Notifications** (`notification.dfy`) covers `Notification`: an id-keyed ordered map of callbacks plus a counter that only grows.
  - The four `connect` overloads are the four kinds of the `Callback` datatype.
  - `notify` returns the ids it fires, in order, plus the invocation each callback makes.
- **ComponentSymbolVariants** (`componentsymbolvariant.dfy`) covers `ComponentSymbolVariant`.
  - Its setters skip both the update and the notification when nothing changes; `setNorm` is the exception.
  - It has a field-wise `operator==` and an `operator=` built from the setters.
  - Its constructors forward the symbol item list's edits into the variant's own `onEdited`.
  - Every `onEdited.notify(*this)` is recorded in the `edits` log as the value the variant has at that moment.
- **Excellon** (`excellon.dfy`) covers `ExcellonGenerator`.
  - The drill list (a `QMultiMap<Length, Point>`) is a diameter-sorted sequence of holes.
  - The output is a sequence of `Line` values.
  - Each print method is proved against the functions `Header`, `ToolTable`, `DrillSection` and `Program`.
  - Lemmas about those functions give the program's layout, the tool numbering and the count of coordinate lines.
- **SortFilterProxy** (`sortfilterproxymodel.dfy`) covers `SortFilterProxyModel::lessThan`.
  - The comparator pins the last row, the "New:" placeholder row of the list models, at the end.
  - The base Qt comparison is a function parameter.

## Model

| member | source | states |
|---|---|---|
| SortFilterProxy.LessThan | libs/librepcb/common/model/sortfilterproxymodel.cpp:47-55 | a pinned left row (row >= rowCount - 1) is never less; an unpinned left row is less than a pinned right row; two unpinned rows compare exactly as the base comparison |
| SortFilterProxy.LastRowIsGreatest | libs/librepcb/common/model/sortfilterproxymodel.cpp:49-53 | the last row is never less than any row, and every other row is less than it |
| SortFilterProxy.EmptyModelComparesNothing | libs/librepcb/common/model/sortfilterproxymodel.cpp:49 | with rowCount 0 every comparison is false, since every row is >= -1 |
| SortFilterProxy.CombinedKeepsStrictOrder | libs/librepcb/common/model/sortfilterproxymodel.cpp:49-54 | if the base comparison is irreflexive, asymmetric or transitive, the combined comparator is too |
| SortFilterProxy.SortedEndsWithPlaceholder | libs/librepcb/common/model/sortfilterproxymodel.cpp:49-53 | a row sequence with no inversion under lessThan that contains the placeholder row ends with a pinned row |
| SignalSlot.AddSignal | libs/librepcb/common/signalslot.h:78 | a new signal has an empty slot set; no link changes; the mirror invariant is kept |
| SignalSlot.AddSlot | libs/librepcb/common/signalslot.h:166-181 | a new slot has an empty signal set; no link changes; the mirror invariant is kept |
| SignalSlot.AttachLinks | libs/librepcb/common/signalslot.h:96-99 | afterwards the slot is in the signal's set and the signal in the slot's; the links are the old ones plus exactly this pair; the mirror invariant is kept |
| SignalSlot.DetachLinks | libs/librepcb/common/signalslot.h:106-109 | afterwards neither side refers to the other; the links are the old ones minus exactly this pair; the mirror invariant is kept |
| SignalSlot.AttachIsIdempotent | libs/librepcb/common/signalslot.h:97-98 | attaching an attached slot leaves both sets unchanged |
| SignalSlot.DetachUnattachedIsNoOp | libs/librepcb/common/signalslot.h:106-109 | detaching a slot that is not attached leaves both sets unchanged |
| SignalSlot.RemoveSignal | libs/librepcb/common/signalslot.h:85-89 | the signal is gone and no slot's set holds it; all links of other signals are unchanged; the mirror invariant is kept |
| SignalSlot.RemoveSlot | libs/librepcb/common/signalslot.h:188-192 | the slot is gone and no signal's set holds it; all links of other slots are unchanged; the mirror invariant is kept |
| SignalSlot.Registry.constructor | libs/librepcb/common/signalslot.h:126-127 | an empty registry satisfies the invariant |
| SignalSlot.Registry.NewSignal | libs/librepcb/common/signalslot.h:78 | the registry becomes AddSignal of the old state, with the sender bound to the new signal |
| SignalSlot.Registry.NewSlot | libs/librepcb/common/signalslot.h:166-181 | the registry becomes AddSlot of the old state, with the callback bound to the new slot |
| SignalSlot.Registry.Attach | libs/librepcb/common/signalslot.h:96-99 | both set inserts: the new state is AttachLinks of the old one, and the invariant holds |
| SignalSlot.Registry.Detach | libs/librepcb/common/signalslot.h:106-109 | both set erases: the new state is DetachLinks of the old one, and the invariant holds |
| SignalSlot.Registry.DestroySignal | libs/librepcb/common/signalslot.h:85-89 | the destructor loop over mSlots yields RemoveSignal of the old state, and the invariant holds |
| SignalSlot.Registry.DestroySlot | libs/librepcb/common/signalslot.h:188-192 | the destructor loop over mSignals yields RemoveSlot of the old state, and the invariant holds |
| SignalSlot.Registry.Notify | libs/librepcb/common/signalslot.h:116-120 | exactly the attached slots are called, each once, each with its own callback, the signal's sender and the arguments |
| SignalSlot.CallEach | libs/librepcb/common/signalslot.h:117-119 | the loop over a slot set makes one call per slot, no slot twice and no other slot |
| SignalSlot.DestroySlotThenNotify | libs/librepcb/common/signalslot.h:188-192 | after a slot is destroyed, notify on any signal never calls it and still calls every other slot that was attached |
| SignalSlot.DestroySignalThenNotify | libs/librepcb/common/signalslot.h:85-89 | after a signal is destroyed no slot refers to it, and every other signal still reaches its old slots |
| SignalSlot.SharedSlot | libs/librepcb/common/signalslot.h:144 | one slot can be attached to two signals while each signal holds a second slot |
| Notifications.Invoke | libs/librepcb/common/notification.h:47-66 | a plain callback calls exactly the stored function; plain and member callbacks receive notify's arguments; bound-argument and forwarding callbacks receive the arguments captured at connect; forwarding notifies exactly the target |
| Notifications.Notification.constructor | libs/librepcb/common/notification.h:44 | counter 0 and no observers |
| Notifications.Notification.Connect | libs/librepcb/common/notification.h:47-50 | returns the incremented counter, larger than every id returned before, and maps it to the callback; no other entry changes |
| Notifications.Notification.ConnectMember | libs/librepcb/common/notification.h:52-55 | as connect, storing a member-function callback |
| Notifications.Notification.ConnectBound | libs/librepcb/common/notification.h:57-61 | as connect, storing a member function with bound arguments |
| Notifications.Notification.ConnectForward | libs/librepcb/common/notification.h:63-66 | as connect, storing a forwarding to another channel with bound arguments |
| Notifications.Notification.Disconnect | libs/librepcb/common/notification.h:68 | removes that id only (an unknown id changes nothing); the counter is kept |
| Notifications.Notification.DisconnectAll | libs/librepcb/common/notification.h:70 | empties the map and keeps the counter |
| Notifications.Notification.Notify | libs/librepcb/common/notification.h:72-76 | the fired ids are exactly the connected ids, strictly ascending, and each fires its own callback's invocation |
| Notifications.CallInOrder | libs/librepcb/common/notification.h:73-75 | iterating an ordered map whose keys lie in 1..last visits every key once, in ascending order |
| Notifications.RegistrationOrder | libs/librepcb/common/notification.h:47-50 | two callbacks connected one after the other fire in connection order |
| Notifications.FreshIds | libs/librepcb/common/notification.h:44-50 | the first connect on a fresh channel returns 1; after disconnectAll the next id is 2, so no id is reused |
| Notifications.ForwardingNotifiesTarget | libs/librepcb/common/notification.h:63-66 | notifying a channel whose only callback forwards notifies the target once, with the bound arguments |
| ComponentSymbolVariants.ComponentSymbolVariant.constructor | libs/librepcb/library/cmp/componentsymbolvariant.cpp:49-58 | the given uuid and norm, one name and one description under the default locale, no symbol items, no edits, a fresh onEdited, and the item list's edits forwarded to onEdited with a copy of the new variant's fields |
| ComponentSymbolVariants.ComponentSymbolVariant.Copy | libs/librepcb/library/cmp/componentsymbolvariant.cpp:39-47 | the copy has the other's fields, its own empty onEdited (observers are not copied) and its own forwarding from the item list, bound to a copy of those fields |
| ComponentSymbolVariants.ComponentSymbolVariant.Emit | libs/librepcb/library/cmp/componentsymbolvariant.cpp:78 | onEdited.notify(*this): the log gains exactly one entry, the variant's current value, and nothing else changes |
| ComponentSymbolVariants.ComponentSymbolVariant.SetNorm | libs/librepcb/library/cmp/componentsymbolvariant.cpp:76-79 | stores the norm, changes nothing else and emits exactly one edit, even when the norm was equal |
| ComponentSymbolVariants.ComponentSymbolVariant.SetName | libs/librepcb/library/cmp/componentsymbolvariant.cpp:81-86 | an equal entry changes nothing and emits nothing; otherwise only that locale's name is set and one edit is emitted |
| ComponentSymbolVariants.ComponentSymbolVariant.SetDescription | libs/librepcb/library/cmp/componentsymbolvariant.cpp:88-93 | an equal entry changes nothing and emits nothing; otherwise only that locale's description is set and one edit is emitted |
| ComponentSymbolVariants.ComponentSymbolVariant.SetNames | libs/librepcb/library/cmp/componentsymbolvariant.cpp:95-99 | an equal map is a no-op; otherwise the whole map is replaced and one edit is emitted |
| ComponentSymbolVariants.ComponentSymbolVariant.SetDescriptions | libs/librepcb/library/cmp/componentsymbolvariant.cpp:101-106 | an equal map is a no-op; otherwise the whole map is replaced and one edit is emitted |
| ComponentSymbolVariants.ComponentSymbolVariant.Equals | libs/librepcb/library/cmp/componentsymbolvariant.cpp:124-132 | true exactly when uuid, norm, names, descriptions and symbol items are all equal |
| ComponentSymbolVariants.ComponentSymbolVariant.Assign | libs/librepcb/library/cmp/componentsymbolvariant.cpp:134-143 | afterwards the target equals rhs; the edits emitted are the norm edit, a names edit if they differed, a descriptions edit if they differed, and the final one |
| ComponentSymbolVariants.ItemEditReachesVariant | libs/librepcb/library/cmp/componentsymbolvariant.cpp:46 | an edit of the symbol item list of a constructed variant notifies exactly that variant's onEdited, once, with the copy bound at construction and not notify's own argument |
| ComponentSymbolVariants.ForwardedCopyIsTakenAtConstruction | libs/librepcb/library/cmp/componentsymbolvariant.cpp:57 | after setNorm changes a new variant, an item edit still forwards the fields the variant had when it was constructed |
| ComponentSymbolVariants.EqualsIsEquivalence | libs/librepcb/library/cmp/componentsymbolvariant.cpp:124-132 | operator== is reflexive, symmetric and transitive |
| Excellon.ExcellonGenerator.constructor | libs/librepcb/common/cam/excellongenerator.cpp:38-39 | empty output and empty drill list |
| Excellon.ExcellonGenerator.Drill | libs/librepcb/common/cam/excellongenerator.cpp:48-51 | adds exactly one (diameter, position) entry, keeps the list ordered by diameter and leaves the output alone |
| Excellon.ExcellonGenerator.Generate | libs/librepcb/common/cam/excellongenerator.cpp:53-58 | the output becomes exactly the program for the drill list; earlier output is discarded |
| Excellon.ExcellonGenerator.Reset | libs/librepcb/common/cam/excellongenerator.cpp:64-67 | empties both the output and the drill list |
| Excellon.ExcellonGenerator.ComputeUniqueKeys | libs/librepcb/common/cam/excellongenerator.cpp:94-95 | the loop computes uniqueKeys of the drill list |
| Excellon.ExcellonGenerator.ComputePositions | libs/librepcb/common/cam/excellongenerator.cpp:104 | the loop computes values(dia) of the drill list |
| Excellon.ExcellonGenerator.PrintHeader | libs/librepcb/common/cam/excellongenerator.cpp:73-91 | appends exactly the header for the drill list's diameters |
| Excellon.ExcellonGenerator.PrintToolList | libs/librepcb/common/cam/excellongenerator.cpp:93-98 | appends exactly the tool table for the drill list's diameters |
| Excellon.ExcellonGenerator.PrintDrills | libs/librepcb/common/cam/excellongenerator.cpp:100-110 | appends exactly the drill section: per tool, its selection then its coordinates |
| Excellon.ExcellonGenerator.PrintTool | libs/librepcb/common/cam/excellongenerator.cpp:102-108 | one loop iteration appends the tool selection and the coordinates of that diameter |
| Excellon.ExcellonGenerator.PrintCoordinates | libs/librepcb/common/cam/excellongenerator.cpp:104-108 | appends one coordinate line per position, in order |
| Excellon.ExcellonGenerator.PrintFooter | libs/librepcb/common/cam/excellongenerator.cpp:112-115 | appends T0 then M30 |
| Excellon.UniqueKeysEnumerateDiameters | libs/librepcb/common/cam/excellongenerator.cpp:94-95 | for a key-ordered list the unique keys are strictly ascending and are exactly the drilled diameters |
| Excellon.ToolTableNumbersDiameters | libs/librepcb/common/cam/excellongenerator.cpp:94-96 | line i of the tool table defines tool i + 1 with the i-th unique diameter |
| Excellon.DrillSectionSelectsEachTool | libs/librepcb/common/cam/excellongenerator.cpp:101-102 | the drill section selects tools 1..n, each once, in that order |
| Excellon.DrillSectionCoordinateCount | libs/librepcb/common/cam/excellongenerator.cpp:101-108 | the drill section has one coordinate line per entry whose diameter is a key |
| Excellon.PositionsCountDrills | libs/librepcb/common/cam/excellongenerator.cpp:104 | values(d) holds each position as often as it was drilled with diameter d |
| Excellon.HeaderLayout | libs/librepcb/common/cam/excellongenerator.cpp:73-91 | the header is M48, the comments, FMAT,2 and METRIC,TZ, then the tool table, then %, G90, G05, M71 |
| Excellon.ProgramLayout | libs/librepcb/common/cam/excellongenerator.cpp:53-58 | the program starts with M48 and the five header lines, has the tool table and the pattern start in place, and ends with T0, M30 |
| Excellon.HeaderShape | libs/librepcb/common/cam/excellongenerator.cpp:73-98 | the header holds no coordinate and no tool selection |
| Excellon.ProgramDrillsEveryEntry | libs/librepcb/common/cam/excellongenerator.cpp:50 | the program has exactly one coordinate line per drill entry |
| Excellon.ProgramSelectsEachTool | libs/librepcb/common/cam/excellongenerator.cpp:100-115 | the tools selected are 1..n in order, then 0 |
| Excellon.EveryHoleHasItsTool | libs/librepcb/common/cam/excellongenerator.cpp:100-110 | every drilled position is listed under the tool whose table line carries its diameter |

## Left out

- Excellon: `saveToFile` is file I/O and is not modelled.
- Excellon: the rendering of lines to text (`Length::toMmString`, the `T%1C%2` and `X%1Y%2` formats) is not modelled. A `Line` keeps the tool number and the lengths as values.
- Excellon: the application version and the creation date are read from the environment in the source. Here they are parameters of `Generate` and `PrintHeader`.
- Excellon.ExcellonGenerator.Drill: inserts before the entries with the same key, and its contract states only the entry multiset and the ordering by diameter. The order of positions within one diameter is a `QMultiMap` detail and is not promised.
- Excellon: `uniqueKeys()` is computed once per print loop rather than on every iteration. The drill list does not change during a loop, so the result is the same.
- ComponentSymbolVariants: the `SExpression` constructor and `serialize` depend on a parser and serialiser that are not part of this model.
- ComponentSymbolVariants: the symbol item list is an opaque value compared and copied as a whole. Its own edit notifications are modelled only through the forwarding.
- ComponentSymbolVariants: `ElementName` validation is not modelled, and names are plain strings.
- ComponentSymbolVariants.ComponentSymbolVariant.constructor: assumes that `LocalizedNameMap(name_en_US)` and `LocalizedDescriptionMap(desc_en_US)` store their value under the key `"en_US"` (`DefaultLocale`). The localized map class is not part of this model, so the key is an assumption.
- ComponentSymbolVariants.ComponentSymbolVariant.constructor: the forwarding connect takes `*this` by value. The model binds a copy of the fields (`forwarded`), not a second variant object. Making that copy would itself run the copy constructor, which connects again with a further copy. That nested construction is not modelled. If `mSymbolItems.onEdited` is the `Notification` class modelled here, it would not terminate; the item list's class is not part of this model.
- ComponentSymbolVariants.ComponentSymbolVariant.Copy: the same by-value copy applies. `forwarded` is the copied fields, and the nested copy constructions this would start are not modelled.
- ComponentSymbolVariants.ItemEditReachesVariant: the forwarded argument is the field copy `forwarded`. The observers of onEdited therefore see the variant as constructed, not as it is now, and that copy's own wiring is not modelled.
- ComponentSymbolVariants.ComponentSymbolVariant.SetName: `tryGet(locale) == name` is read as "the locale has an entry and it equals name". The localized map class is not part of this model.
- ComponentSymbolVariants.ComponentSymbolVariant.SetDescription: `tryGet(locale) == desc` is read the same way, as "the locale has an entry and it equals desc". The localized map class is not part of this model.
- ComponentSymbolVariants: onEdited's observers are not run. Each notification is recorded in `edits` instead.
- Notifications: callback bodies are not run. Notify returns the invocation of each callback.
- Notifications: a callback that connects or disconnects on the channel during notify is not modelled. The source iterates the map while it may change.
- Notifications: a forwarding invocation names its target channel and its arguments, but the target's own notify is not expanded.
- Notifications: the bound arguments are values of the same type as notify's arguments. The source's separate parameter packs are not modelled.
- Notifications: the `int` counter `mId` is a `nat`, so its overflow is not modelled.
- Notifications.Notification.Notify: visits the ids by scanning 1..id. That yields the ascending key order of `std::map` iteration.
- SignalSlot.Registry.Notify: the order of calls follows `std::set<Slot*>` pointer order, which is unspecified. The contract states "each attached slot exactly once" and no order.
- SignalSlot: callback bodies are not run, and a callback that attaches, detaches or destroys during notify is not modelled, because notify iterates a `std::set` that would then change under it.
- SignalSlot: thread safety, queued delivery and loop detection are not modelled; the source disclaims them.
- SignalSlot: object allocation is a caller-chosen handle that is not yet in use. Pointer identity is not modelled.
