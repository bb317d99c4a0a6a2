# Design-pattern demonstration: the observer hub, logger and shape factories

This project models a small C# program that demonstrates three
object-oriented design patterns, and proves properties of the model.

- **Observer** (the stateful core). `NotificationService` keeps an ordered,
  mutable list of observer handles. `Subscribe` appends a handle.
  `Unsubscribe` calls `List<T>.Remove`, which deletes the first element equal
  to the argument and does nothing when there is none. `Notify` walks the
  list in order and calls `Update` on each entry. The only observer is
  `User`, which writes `"<name> has received a notification: <message>"`.
- **Singleton.** `Logger.Instance.Log(m)` writes `"[LOG]: " + m`.
- **Factory method.** `CircleFactory` and `SquareFactory` create a `Circle` or
  a `Square`, which draw `"Drawing Circle"` and `"Drawing Square"`.

Layout:

- `lists.dfy` (module `Lists`): `List<T>.Remove` as `IndexOf` followed by
  `RemoveAt`, with an independent recursive definition and the lemmas that
  relate them.
- `observers.dfy` (module `Observers`): `User` as a class, so handles are
  compared by reference, as in C#, where `User` does not override `Equals`.
  `NotificationService` is a class with a `seq<User>` field. `Subscribe` and
  `Unsubscribe` modify that field. `Notify` walks it with a `for` loop and
  returns one `Delivery` per entry. Those deliveries stand in for the
  console lines. `Broadcast` is the specification function that `Notify` is
  proved against.
- `logging.dfy` (module `Logging`), `shapes.dfy` (module `Shapes`): the
  logger and the shapes as datatypes with pure functions.
- `program.dfy` (module `Program`): the `Main` driver as `RunProgram`, which
  returns every line written to the console, plus usage scenarios of the hub.

Console output is returned as data. `Notify` returns deliveries, and
`Log`, `Update` and `Draw` return their lines. `RunProgram` returns the
sequence of arguments passed to `Console.WriteLine`. A heading that starts
with `"\n"` keeps that character inside its string.

## Model

| member | source | states |
|---|---|---|
| `Lists.FirstIndex` | Program.cs:55 | The position `Remove` deletes at is the first element equal to the handle. It is `|s|` exactly when the handle is absent, and no earlier element equals the handle. |
| `Lists.RemoveFirst` | Program.cs:55 | Removing an absent handle leaves the list unchanged and is no error. Removing a present handle shortens the list by exactly one. |
| `Lists.RemoveFirstCounts` | Program.cs:55 | Exactly one copy of the handle is removed, and no copy of anything else. A handle registered k times is registered k−1 times afterwards. |
| `Lists.RemoveFirstMatchesRef` | Program.cs:55 | `IndexOf` followed by `RemoveAt` equals the element-by-element definition: keep elements up to the first match, drop it, keep the rest. |
| `Lists.RemoveFirstKeepsOthers` | Program.cs:55 | All other entries keep their relative order. With every copy of the handle filtered out, the list before and after is the same. |
| `Lists.RemoveFirstPositions` | Program.cs:55 | Entries before the first match keep their positions. Entries after it move up by one. |
| `Lists.RemoveFirstAfterAppend` | Program.cs:49-56 | Subscribing a handle that was not present and then unsubscribing it restores the list. |
| `Lists.RemoveFirstAfterAppendPresent` | Program.cs:49-56 | If the handle was already present, subscribing it again and then unsubscribing removes the older copy. The new copy stays at the end. |
| `Observers.User.constructor` | Program.cs:69-72 | A user keeps the name it was built with. |
| `Observers.User.Update` | Program.cs:73-76 | A notification line is the user's name, then `" has received a notification: "`, then the message, with nothing else. |
| `Observers.UpdateIsInjective` | Program.cs:75 | Two users whose names have the same length write the same line only for the same name and the same message. |
| `Observers.Broadcast` | Program.cs:57-63 | A broadcast makes one delivery per list entry, in list order. Each delivery carries the line its recipient renders for the message. |
| `Observers.BroadcastRecipients` | Program.cs:57-63 | The recipients of a broadcast are the list itself. Every registration receives the message exactly once, in registration order. |
| `Observers.BroadcastCountsRegistrations` | Program.cs:57-63 | A handle registered k times receives k deliveries. Duplicates are not merged. |
| `Observers.BroadcastAfterSubscribe` | Program.cs:49-63 | After `Subscribe(o)`, a broadcast delivers what it delivered before, then one delivery to `o`. |
| `Observers.BroadcastAfterUnsubscribe` | Program.cs:53-63 | After `Unsubscribe(x)`, a broadcast delivers what it delivered before, minus the first delivery to `x`. |
| `Observers.NotificationService.constructor` | Program.cs:48 | A new hub has an empty observer list. |
| `Observers.NotificationService.Subscribe` | Program.cs:49-52 | The list grows by exactly one and ends with the new handle. Every existing entry keeps its position. |
| `Observers.NotificationService.Unsubscribe` | Program.cs:53-56 | The new list is the old one with its first copy of the handle removed. An absent handle leaves it unchanged. One copy fewer remains, and the order of the other entries is kept. |
| `Observers.NotificationService.Notify` | Program.cs:57-63 | The loop over the list returns exactly the deliveries of `Broadcast` for the current list. The list is not modified. |
| `Logging.Logger.Log` | Program.cs:35-38 | A log line is `"[LOG]: "` followed by the message, with nothing else. |
| `Logging.LogIsInjective` | Program.cs:35-38 | Two messages give the same log line exactly when they are equal. |
| `Shapes.Shape.Draw` | Program.cs:84-92 | A shape draws `"Drawing "` followed by its kind: `"Circle"` for a circle, `"Square"` for a square. |
| `Shapes.ShapeFactory.CreateShape` | Program.cs:99-107 | The circle factory creates exactly circles, and the square factory exactly squares. |
| `Shapes.DrawTellsShapesApart` | Program.cs:84-92 | Two shapes draw the same line exactly when they are the same shape. |
| `Shapes.FactoryProductDraws` | Program.cs:84-107 | A circle factory's product draws `"Drawing Circle"`, and a square factory's product draws `"Drawing Square"`. |
| `Program.RunProgram` | Program.cs:6-24 | The driver writes the first heading, two log lines, the second heading, then Alice's line followed by Bob's line for `"New update available!"`, then the third heading and `"Drawing Circle"`. |
| `Program.AliceAndBob` | Program.cs:13-18 | Subscribing Alice, then Bob, and notifying `"New update available!"` yields Alice's line first, then Bob's. |
| `Program.SubscribeThenUnsubscribe` | Program.cs:49-63 | After subscribing Alice and unsubscribing her, a notification delivers nothing. |
| `Program.SameNameSameLine` | Program.cs:66-77 | Two separate users named Alice, both subscribed, each receive the identical line `"Alice has received a notification: x"`. |
| `Program.SameNameTwoHandles` | Program.cs:46-77 | Two users built with the same name are different handles. Unsubscribing the later one leaves exactly the earlier one, which removal by name would not. |
| `Program.DuplicateRegistration` | Program.cs:49-63 | A handle subscribed twice receives two identical deliveries. After one unsubscribe, it receives one. |
| `Program.UnsubscribeUnknown` | Program.cs:53-56 | Unsubscribing a handle that was never subscribed changes nothing that a later notification shows. |
| `Program.NotifyTwice` | Program.cs:57-63 | Two consecutive notifications with the same message deliver identical sequences, one delivery per list entry. |

## Left out

- Console writes (`Console.WriteLine`) are I/O. The text is returned as strings and delivery records instead.
- The static initialisation of the singleton (`private static readonly Logger _instance`, the private constructor) belongs to the .NET runtime. `Logger` is a datatype with one value, and `Instance` is a constant holding that value.
- Null handles and null strings: the model's `User` and `string` types cannot hold null. In the C# code, `Subscribe(null)` puts null in the list because `List.Add` accepts it (Program.cs:51), and `Unsubscribe(null)` removes the first null. `Notify` then throws `NullReferenceException` at `observer.Update(message)` (Program.cs:61), after delivering to the entries before it. A null name or a null message is rendered as the empty string by the interpolation (Program.cs:75), and so is a null message given to `Log` (Program.cs:37).
- `IObserver` as an open interface: `User` is its only implementation in the program, so the hub holds `User` handles, with no interface type between them.
- The `bool` that `List<T>.Remove` returns: `Unsubscribe` discards it, so the model does not return it.
- Re-entrant `Subscribe` or `Unsubscribe` from inside `Update` during `Notify`: the program never does this, and the outcome depends on the .NET list enumerator. `Update` has no access to the hub in the model.
- Exceptions thrown by an observer's `Update`, and how they would end `Notify` early: runtime exception behaviour. `User.Update` never throws.
- Thread safety of the observer list: the program is single-threaded and does not address it.
- Notification lines in the scenario contracts of module `Program` are written as the three pieces that the C# interpolation joins, such as `"Alice" + " has received a notification: " + "x"`. That is the same string as the single literal. The verifier does not prove the equality of literal concatenations this long cheaply, so the pieces are kept.
