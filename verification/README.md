# Design-pattern demos, modelled in Dafny

This project models the sequential logic in seven of the repository's Java
design-pattern demos. Each one is written as pure functions over immutable
datatypes, with proofs of what the demo's code promises:

- **Adapter** (`adapter.dfy`): `AudioPlayer.play` picks an adapter from the
  filename's extension, checking `.vlc`, then `.mp4`, then `.wav`/`.mp3`. It
  prints "Unsupported format" when nothing matches. The three adapters
  translate `play` into the legacy players' own calls.
- **Decorator** (`decorator.dfy`): a simple coffee wrapped in Milk, Sugar,
  Whipped Cream and Vanilla decorators. Each layer appends a label to the
  description and adds a fixed amount to the cost. Costs are integer cents.
- **Composite** (`composite.dfy`): a tree of files and folders. It covers
  `getSize`, `add`, `remove` and the indented pre-order rendering of
  `showDetails`.
- **Observer** (`observer.dfy`): a news agency with an ordered subscriber
  list, `subscribe`, `unsubscribe`, `notifyObservers` and `publishNews`.
- **Strategy** (`strategy.dfy`): a shopping cart that refuses to check out
  without a payment strategy and otherwise delegates to the latest one.
- **Builder** (`builder.dfy`): `User.Builder`'s setters and `build`.
- **Prototype** (`prototype.dfy`): `Document`'s constructor, accessors and
  `clone`.

Three shared modules support them:

- `java_lang.dfy` holds Java's `int`/`long` ranges, null references and the
  "null" text that string concatenation inserts for them, and thrown
  exceptions as values.
- `strings.dfy` holds `String.endsWith` and decimal rendering of integers,
  with its inverse.
- `sequences.dfy` holds `List.remove(Object)`: remove the first match.

Strings are sequences of Unicode characters, not Java's UTF-16 code
units. The icons "📄" and "📁" are one character each here but two `char`s
in Java. No contract measures a line that contains an icon, so nothing
depends on the difference.

Console output is modelled as the list of lines an operation prints. Each
element is the argument of one `System.out.println` call. An operation that
changes state returns the new state together with those lines
(`JavaLang.Printed`).

Object identity matters for `Folder.remove` and `NewsAgency.unsubscribe`.
Both call `List.remove(Object)`, and the element classes (`File`, `Folder`
and the three subscribers) keep `Object`'s identity `equals`. Identity is
modelled by an explicit `id` on every tree node and subscriber, and removal
compares ids. Ids are assumed unique per object: two distinct objects given
the same id would be treated as one, and removal could drop an element Java
would keep. The Prototype
model keeps documents in an explicit heap (a map from references to
objects), so "the clone is a different object" is a checked statement
rather than an artefact of value semantics.

## Model

| member | source | states |
|---|---|---|
| `Adapter.SelectAdapter` | src/main/java/patterns/adapter/AdapterPatternDemo.java:85-96 | no adapter is constructed exactly when the name ends in none of ".vlc", ".mp4", ".wav", ".mp3"; the dispatcher never selects itself |
| `Adapter.Play` | src/main/java/patterns/adapter/AdapterPatternDemo.java:17-99 | every `play` prints exactly one line; the VLC, MP4 and legacy adapters print their adaptee's line for any filename, without looking at the extension; an unrecognised name prints "Unsupported format: " + name |
| `Adapter.DispatchDelegates` | src/main/java/patterns/adapter/AdapterPatternDemo.java:85-98 | when an adapter is selected, the player's output is exactly that adapter's output for the unchanged filename |
| `Adapter.PlayVlcFile` | src/main/java/patterns/adapter/AdapterPatternDemo.java:87-88 | every name ending in ".vlc" prints "Playing VLC file: " + name |
| `Adapter.PlayMp4File` | src/main/java/patterns/adapter/AdapterPatternDemo.java:89-90 | every name ending in ".mp4" prints "Playing MP4 file: " + name; the earlier ".vlc" test can never capture it |
| `Adapter.PlayAudioFile` | src/main/java/patterns/adapter/AdapterPatternDemo.java:91-92 | every name ending in ".wav" or ".mp3" prints "Playing audio file: " + name + " at volume: 75" |
| `Adapter.UnsupportedIffNoExtension` | src/main/java/patterns/adapter/AdapterPatternDemo.java:93-96 | the output is the "Unsupported format" diagnostic if and only if no recognised extension matches |
| `Adapter.FilenamePassedThrough` | src/main/java/patterns/adapter/AdapterPatternDemo.java:85-98 | every printed line contains the filename unmodified, right after one of the four fixed prefixes |
| `Adapter.CaseSensitiveMatching` | src/main/java/patterns/adapter/AdapterPatternDemo.java:87-91 | matching is case-sensitive ("song.MP3" is unsupported), and the empty name is unsupported |
| `Adapter.DemoVlcFile` | src/main/java/patterns/adapter/AdapterPatternDemo.java:110 | the demo's ".vlc" file prints the VLC adapter's line |
| `Adapter.DemoMp4File` | src/main/java/patterns/adapter/AdapterPatternDemo.java:111 | the demo's ".mp4" file prints the MP4 adapter's line |
| `Adapter.DemoMp3File` | src/main/java/patterns/adapter/AdapterPatternDemo.java:112 | the demo's ".mp3" file plays at volume 75 |
| `Adapter.DemoWavFile` | src/main/java/patterns/adapter/AdapterPatternDemo.java:113 | the demo's ".wav" file plays at volume 75 |
| `Adapter.DemoUnsupportedFile` | src/main/java/patterns/adapter/AdapterPatternDemo.java:114 | "document.pdf" is reported as unsupported |
| `Adapter.DemoDirectAdapters` | src/main/java/patterns/adapter/AdapterPatternDemo.java:119-123 | adapters used directly print their adaptee's line |
| `Decorator.Description` | src/main/java/patterns/decorator/DecoratorPatternDemo.java:20-117 | every description starts with "Simple Coffee" |
| `Decorator.Cost` | src/main/java/patterns/decorator/DecoratorPatternDemo.java:20-117 | no chain costs less than 2.00 |
| `Decorator.CostIsBasePlusIncrements` | src/main/java/patterns/decorator/DecoratorPatternDemo.java:52-117 | a chain's cost is 2.00 plus the sum of its layers' increments (0.50, 0.25, 0.75, 0.60) |
| `Decorator.CostIgnoresOrder` | src/main/java/patterns/decorator/DecoratorPatternDemo.java:52-117 | two chains with the same layers in any nesting order cost the same |
| `Decorator.DescriptionListsToppings` | src/main/java/patterns/decorator/DecoratorPatternDemo.java:52-117 | a chain's description is "Simple Coffee" followed by its layers' labels, innermost first |
| `Decorator.LayerGrows` | src/main/java/patterns/decorator/DecoratorPatternDemo.java:57-116 | each added layer makes the description strictly longer and the cost strictly higher |
| `Decorator.WrapToppings` | src/main/java/patterns/decorator/DecoratorPatternDemo.java:33-38 | each decorator holds exactly one inner coffee, so a chain is determined by its list of layers |
| `Decorator.ToppingsWrap` | src/main/java/patterns/decorator/DecoratorPatternDemo.java:33-38 | every list of layers is the layer list of the chain that wraps them in that order |
| `Decorator.DemoChains` | src/main/java/patterns/decorator/DecoratorPatternDemo.java:123-132 | plain coffee, with milk, and with milk and sugar: descriptions and costs 2.00, 2.50, 2.75 |
| `Decorator.FancyLayers` | src/main/java/patterns/decorator/DecoratorPatternDemo.java:135-139 | the fancy coffee's layers, innermost first, are milk, sugar, whipped cream, vanilla |
| `Decorator.DemoFancyCoffee` | src/main/java/patterns/decorator/DecoratorPatternDemo.java:135-140 | the fancy coffee reads "Simple Coffee, Milk, Sugar, Whipped Cream, Vanilla" and costs 4.10 |
| `Composite.NewFolder` | src/main/java/patterns/composite/CompositePatternDemo.java:53-57 | a new folder has the given name and no children |
| `Composite.Size` | src/main/java/patterns/composite/CompositePatternDemo.java:39-79 | a file's size is its constructor argument; an empty folder's size is 0 |
| `Composite.SizeIsSumOfFiles` | src/main/java/patterns/composite/CompositePatternDemo.java:73-79 | a component's size is the sum of the sizes of all files reachable from it, at any depth |
| `Composite.Add` | src/main/java/patterns/composite/CompositePatternDemo.java:59-61 | the child is appended after the existing children, which keep their order; the folder grows by the child's size |
| `Composite.Remove` | src/main/java/patterns/composite/CompositePatternDemo.java:63-65 | only the first child that is the same object is removed, the rest keep their order, and the folder shrinks by that child's size; an absent child changes nothing |
| `Composite.Indent` | src/main/java/patterns/composite/CompositePatternDemo.java:85 | the indentation at depth d is 4·d spaces |
| `Composite.Line` | src/main/java/patterns/composite/CompositePatternDemo.java:45-83 | a file's line is the indentation, the file icon, the name and its size followed by " KB)"; a folder's line uses the folder icon and the folder's total size followed by " KB total)" |
| `Composite.Show` | src/main/java/patterns/composite/CompositePatternDemo.java:44-87 | the node's own line comes first, and every line carries at least the given indentation |
| `Composite.ShowIsIndentedPreOrder` | src/main/java/patterns/composite/CompositePatternDemo.java:82-87 | `showDetails` prints one line per node, in pre-order, each node indented four spaces deeper than its parent |
| `Composite.DemoSizes` | src/main/java/patterns/composite/CompositePatternDemo.java:94-129 | in the demo tree, Documents is 12, Media 1755 and Root 1767 |
| `Composite.DemoRootLine` | src/main/java/patterns/composite/CompositePatternDemo.java:83-123 | the first line `root.showDetails("")` prints is the root folder with its total of 1767 KB |
| `Composite.DemoFileLine` | src/main/java/patterns/composite/CompositePatternDemo.java:46-108 | "document.txt", two levels down, prints with eight spaces of indentation and its own 10 KB |
| `Composite.DemoDuplicates` | src/main/java/patterns/composite/CompositePatternDemo.java:59-65 | a file added twice appears twice; removing it drops only the first copy; removing an absent file changes nothing |
| `JavaLang.Text` | src/main/java/patterns/observer/ObserverPatternDemo.java:69 | string concatenation inserts a reference's text, or "null" for a null reference |
| `Strings.EndsWithIffStem` | src/main/java/patterns/adapter/AdapterPatternDemo.java:87-91 | `endsWith` holds exactly when the string is some stem followed by the suffix, so every string ends with "" and no string ends with a longer one |
| `Strings.NatToString` | src/main/java/patterns/composite/CompositePatternDemo.java:46 | the decimal digits of a number are non-empty, all digits, and have no leading zero unless the number is 0 |
| `Strings.ParseNatToString` | src/main/java/patterns/composite/CompositePatternDemo.java:46 | reading the printed digits back gives the number again |
| `Strings.IntToString` | src/main/java/patterns/strategy/StrategyPatternDemo.java:29 | an `int`'s text is non-empty and starts with a minus sign exactly when the number is negative, and with a digit otherwise |
| `Strings.IntToStringInjective` | src/main/java/patterns/strategy/StrategyPatternDemo.java:29 | different amounts never print the same text |
| `Sequences.RemoveFirst` | src/main/java/patterns/composite/CompositePatternDemo.java:64 | `List.remove(Object)` drops the first matching element and keeps the others in order; no match leaves the list unchanged |
| `Sequences.RemoveFirstLength` | src/main/java/patterns/observer/ObserverPatternDemo.java:41 | when something matches, removal takes out exactly one element, the first match |
| `Observer.Subscribe` | src/main/java/patterns/observer/ObserverPatternDemo.java:34-37 | the observer is appended at the end, duplicates allowed; the news is untouched; one confirmation line |
| `Observer.Unsubscribe` | src/main/java/patterns/observer/ObserverPatternDemo.java:40-43 | only the first entry that is the same object is removed, the rest keep their order; an absent observer changes nothing |
| `Observer.UpdateFormat` | src/main/java/patterns/observer/ObserverPatternDemo.java:67-98 | every subscriber's line ends with ": " and the news, or "null" for a null reference; it starts with "Email sent to " and the address, "SMS sent to " and the number, or "Push notification to " and the username followed by "'s app", by kind |
| `Observer.DemoSubscriberLines` | src/main/java/patterns/observer/ObserverPatternDemo.java:67-109 | for any news item, the demo's three subscribers print "Email sent to john@email.com: ", "SMS sent to +1234567890: " and "Push notification to john_doe's app: " followed by it |
| `Observer.NotifyObservers` | src/main/java/patterns/observer/ObserverPatternDemo.java:46-50 | one update per list entry, in list order, each with the latest news |
| `Observer.PublishNews` | src/main/java/patterns/observer/ObserverPatternDemo.java:52-56 | records the news, null included, prints the banner, then notifies every subscriber in order with the new news; the subscriber list is unchanged |
| `Observer.PublishNull` | src/main/java/patterns/observer/ObserverPatternDemo.java:46-98 | publishing null is accepted on any agency and stored as the latest news, and every subscriber's line, whatever its kind, ends with ": null" |
| `Observer.NotifyBeforePublish` | src/main/java/patterns/observer/ObserverPatternDemo.java:31-48 | before any publish, subscribers are handed the null news, which prints as "null" |
| `Observer.DemoFirstPublish` | src/main/java/patterns/observer/ObserverPatternDemo.java:112-117 | after subscribing email, SMS and app, the subscribers are listed in that order and a publish reaches all three in that order |
| `Observer.DemoSecondPublish` | src/main/java/patterns/observer/ObserverPatternDemo.java:117-123 | after the first publish and unsubscribing SMS, the next publish reaches email and then app, and nobody else |
| `Strategy.PayIsAmountThenReceipt` | src/main/java/patterns/strategy/StrategyPatternDemo.java:27-52 | each strategy prints the unchanged amount followed by its own text: "$ paid with credit card: " + card, "$ paid using PayPal account: " + email, "$ paid in cash" |
| `Strategy.PayDeterminesAmount` | src/main/java/patterns/strategy/StrategyPatternDemo.java:27-52 | the amount can be read back from a payment line: equal lines mean equal amounts |
| `Strategy.CreditCardHidesName` | src/main/java/patterns/strategy/StrategyPatternDemo.java:18-30 | the credit-card line ends with the card number and does not depend on the stored holder name |
| `Strategy.SetPaymentStrategy` | src/main/java/patterns/strategy/StrategyPatternDemo.java:59-61 | the new strategy, or null, replaces whatever was set before |
| `Strategy.Checkout` | src/main/java/patterns/strategy/StrategyPatternDemo.java:63-69 | exactly one line; "Please select a payment method!" if and only if no strategy is set; otherwise the strategy's payment of the unchanged amount |
| `Strategy.LatestStrategyWins` | src/main/java/patterns/strategy/StrategyPatternDemo.java:59-69 | only the most recently set strategy affects checkout; setting null returns to the no-method state |
| `Strategy.DemoNoStrategy` | src/main/java/patterns/strategy/StrategyPatternDemo.java:63-67 | a fresh cart refuses to check out |
| `Strategy.DemoCreditCard` | src/main/java/patterns/strategy/StrategyPatternDemo.java:78-79 | the demo's credit-card checkout line |
| `Strategy.DemoPayPal` | src/main/java/patterns/strategy/StrategyPatternDemo.java:82-83 | the demo's PayPal checkout line |
| `Strategy.DemoCash` | src/main/java/patterns/strategy/StrategyPatternDemo.java:86-87 | the demo's cash checkout line |
| `Builder.Name` | src/main/java/patterns/builder/User.java:22-25 | sets the name and changes no other field |
| `Builder.Age` | src/main/java/patterns/builder/User.java:27-30 | sets the age, any `int` accepted, and changes no other field |
| `Builder.Email` | src/main/java/patterns/builder/User.java:32-35 | sets the email and changes no other field |
| `Builder.Active` | src/main/java/patterns/builder/User.java:37-40 | sets the active flag and changes no other field |
| `Builder.Build` | src/main/java/patterns/builder/User.java:9-14 | the built user's four fields equal the builder's current fields |
| `Builder.LastWriteWins` | src/main/java/patterns/builder/User.java:22-44 | after any chain of setters, each field of the built user is the value of the last setter call for it, or its earlier value when none |
| `Builder.UntouchedFieldsKeepDefaults` | src/main/java/patterns/builder/User.java:17-20 | fields no setter touched keep Java's defaults: null name and email, age 0, inactive |
| `Builder.SetTwice` | src/main/java/patterns/builder/User.java:22-30 | calling any of the four setters twice keeps only the second value |
| `Builder.DemoUser` | src/main/java/patterns/builder/User.java:47-53 | the demo's chain builds the expected user; a negative age is accepted |
| `Prototype.New` | src/main/java/patterns/prototype/Document.java:7-9 | a new document is a fresh object holding the given content |
| `Prototype.SetContent` | src/main/java/patterns/prototype/Document.java:15-17 | changes that one document's content and no other object |
| `Prototype.ObjectClone` | src/main/java/patterns/prototype/Document.java:21-23 | the superclass copy succeeds exactly for a `Cloneable` class, giving a field-by-field copy at a fresh reference |
| `Prototype.Clone` | src/main/java/patterns/prototype/Document.java:20-26 | never fails, and returns a different object with the original's content, leaving existing objects as they were |
| `Prototype.CopyIsIndependent` | src/main/java/patterns/prototype/Document.java:20-39 | changing the copy's content leaves the original's alone, and the other way round |
| `Prototype.GetReturnsLatest` | src/main/java/patterns/prototype/Document.java:7-17 | `getContent` returns the constructor value, then the most recent `setContent` value |
| `Prototype.DemoScenario` | src/main/java/patterns/prototype/Document.java:28-40 | the clone starts with the original text, and after it is edited the original still has its own |

## Left out

- The `main` drivers are not modelled as programs: they print banners and
  framing lines. Their scenarios appear as the `Demo…` lemmas
  above.
- Decorator cost is exact integer cents, not Java `double`. The demo's
  printed prices (`2.0`, `4.1`, …) depend on `Double.toString` and are not
  modelled.
- `Decorator.CostIsBasePlusIncrements`, `Decorator.CostIgnoresOrder`: these
  hold for the cents model only. Java adds `double`s one layer at a time and
  rounds after each step, so the printed total can depend on the order of
  the layers. Milk around three Vanillas around a simple coffee gives
  4.300000000000001, while Vanilla, Milk, Vanilla, Vanilla gives 4.3.
- Long overflow in `Folder.getSize` is not modelled: a folder's size is an
  unbounded integer. Files' sizes are `long`.
- Composite aliasing and cycles are not modelled. Trees are values. A folder
  added to a parent and changed afterwards would show the change in Java but
  not here, and a cyclic folder graph (where Java's `getSize` diverges) cannot
  be built.
- `CoffeeDecorator`'s own `getDescription`/`getCost`
  (DecoratorPatternDemo.java:40-48) only forward to the inner coffee. Every
  concrete decorator overrides both without calling `super`, so these bodies
  never run, and no separate member models them.
- Null is modelled for the latest news, the builder's name and email, the
  document content, and (as a reference) the payment strategy. The other
  stored strings are non-null here, although Java would accept null for them
  and print "null": file and folder names, subscriber e-mail addresses,
  phone numbers and usernames, card numbers, holder names and PayPal
  addresses. String parameters are non-null too. For example,
  `showDetails(null)` in Java prints "null📁 Root (1767 KB total)" and passes
  "null    " down to the children (CompositePatternDemo.java:83-85).
- A null filename is not modelled: filenames are non-null strings. In Java,
  an adapter used directly prints "...: null", while `AudioPlayer.play(null)`
  throws `NullPointerException` at the first `endsWith`
  (AdapterPatternDemo.java:87).
- Null elements are not modelled: `subscribe(null)` and `Folder.add(null)`
  are accepted by Java, and the next `notifyObservers` or `getSize` then
  throws `NullPointerException`. Subscribers and components here are always
  objects. Likewise a decorator constructed around null
  (DecoratorPatternDemo.java:36-38) is accepted, and its `getDescription`
  and `getCost` then throw `NullPointerException`; chains here always end
  in `SimpleCoffee`.
- Unsubscribing during a notification is not modelled, because the source
  does not exercise it. Java's `ArrayList` iterator would then throw
  `ConcurrentModificationException`. The exception is a removal during the
  second-to-last update: the loop then stops early without an exception and
  the last subscriber is never notified.
- `Boisson` (template method) and `RealImage` (proxy) are left out.
  `Boisson` prints two fixed lines around the abstract hook
  `ajouterIngredient`, whose subclasses are not part of this model.
  `RealImage` only prints: "Loading image " + filename when constructed,
  then "Displaying image". Its `Image` interface and the proxy are not part
  of this model either.
- `Builder.Build`: Java's `build` returns a new object and leaves the builder
  as it was. Here the builder and the user are values, so "later builder
  changes do not affect a built user" holds by construction and is not a
  separate lemma.
