# Design-pattern demos: a verified model of the stateful ones

The repository is a collection of small TypeScript design-pattern demos. This
project models the demos that hold sequential behaviour that can be stated:

- the subscriber registries of `Observer.ts` and `EventHandler.ts`;
- the command stack with one-level undo of `Command.ts`;
- request routing through the handler chain of `ChainResponsibility.ts` and
  through the mediator of `Mediator.ts`;
- the snapshot store of `Memento.ts`;
- the index cursor of `Iterator.ts`;
- the memo table of `Flyweight.ts`, the free list of `ObjectPool.ts` and the
  lazy loader of `Proxy.ts`;
- the task queue of `Multiplexer.ts`;
- the two-state machine of `State.ts`;
- the expression evaluator of `Interpreter.ts` and the price/description
  chain of `Decorator.ts`.

There is one Dafny module per source file. `Wrappers` holds `Option`, whose
`None` stands for JavaScript's `undefined`/`null`. `Lists` holds the
`indexOf`/`splice` primitives shared by the two registries.

The classes whose fields the source updates in place are Dafny classes. Their
methods have `modifies` clauses and state their new fields in terms of the old
ones. Expression trees, cars, mementos and commands are datatypes.

The only observable effect in the source is console output. Every operation
that logs returns what it logs as an `out` sequence, and the caller
concatenates. Where the exact text is long, a small `Line` datatype stands for
the line and a `Text` function gives its wording. The driver code of each
stateful demo is a `Scenario` method that builds the objects and runs the
calls. Where the driver's output is fixed, its ensures state that log. The
object pool's driver prints objects with random ids, so its `Scenario` states
which instances are handed out instead. The drivers of `Interpreter.ts` and
`Decorator.ts` compute values only, and there `Example` lemmas state them.

Identity matters in three places, and there it is modelled by reference
equality on Dafny class instances:

- `indexOf` compares observers and handler closures with `===`; these are
  field-less classes;
- the pool hands out objects, a field-less class too;
- the flyweight factory returns the same `ConcreteFlyweight` object for the
  same key; that class keeps its `sharedState`.

## Model

| member | source | states |
|---|---|---|
| Lists.IndexOf | Observer.ts:29 | the result is -1 exactly when the element is absent; otherwise it is a position holding the element with no earlier occurrence |
| Lists.RemoveAt | Observer.ts:32 | `splice(i, 1)` keeps the prefix before `i`, shifts the rest down by one, and shortens the list by one |
| Lists.RemoveFirst | Observer.ts:28-33 | an absent element leaves the list unchanged; a present one shortens it by exactly one |
| Lists.RemoveFirstCount | Observer.ts:29-32 | exactly one copy of the element is removed; every other element keeps its multiplicity |
| Lists.RemoveFirstOccurrence | Observer.ts:28-33 | only the first occurrence goes; the prefix and everything after it, later duplicates included, stay in order |
| Lists.AppendThenRemove | EventHandler.ts:18-27 | pushing an absent element and then removing it restores the original list |
| Lists.RemoveTwice | Observer.ts:28-33 | after detaching an element that occurred at most once, it is absent and a second detach is a no-op |
| Observer.ConcreteObserver.Update | Observer.ts:44-46 | `update` logs "Recived data: " followed by the data |
| Observer.ConcreteSubject.constructor | Observer.ts:20 | a new subject has no observers |
| Observer.ConcreteSubject.Attach | Observer.ts:23-25 | the observer is appended; earlier entries are unchanged |
| Observer.ConcreteSubject.Detach | Observer.ts:28-34 | the list becomes the indexOf/splice removal of the first identical entry; an absent observer leaves it unchanged |
| Observer.ConcreteSubject.Notify | Observer.ts:36-40 | one update per list entry, in list order, with the same data (duplicates are called twice); the observers called are exactly the list, in order; the list is not modified |
| Observer.DetachFromPair | Observer.ts:62 | detaching o1 from [o1, o2] leaves [o2] |
| Observer.Scenario | Observer.ts:51-65 | the first notify reaches o1 then o2, and after detaching o1 the second reaches only o2 |
| EventHandler.EventEmitter.constructor | EventHandler.ts:15 | a new emitter has no subscribers |
| EventHandler.EventEmitter.Subscribe | EventHandler.ts:18-20 | the handler is appended at the end |
| EventHandler.EventEmitter.Unsubscribe | EventHandler.ts:23-28 | the first identical handler is removed and the rest keep their order; an absent handler changes nothing |
| EventHandler.EventEmitter.Emit | EventHandler.ts:31-33 | every subscriber is invoked once, in order, with the same data; the list is unchanged |
| EventHandler.SubscribeThenUnsubscribe | EventHandler.ts:53-62 | subscribing a handler that was not subscribed, then unsubscribing it, restores the list |
| EventHandler.Scenario | EventHandler.ts:45-62 | the subscribed handler receives the emitted event once, and unsubscribing empties the list |
| Command.Light.constructor | Command.ts:13-20 | a new light is off |
| Command.Light.TurnOn | Command.ts:14-16 | the light is on and "Light is on" is logged |
| Command.Light.TurnOff | Command.ts:17-19 | the light is off and "Light is off" is logged |
| Command.Execute | Command.ts:29-31 | `LightOnCommand.execute` switches its light on |
| Command.Undo | Command.ts:33-35 | `LightOnCommand.undo` switches its light off |
| Command.RemoteControl.constructor | Command.ts:38-40 | a new remote has an empty stack and no undo record |
| Command.RemoteControl.SetCommand | Command.ts:42-44 | the command is pushed on the end; the undo record is untouched |
| Command.RemoteControl.PressButton | Command.ts:46-52 | on an empty stack nothing changes, including the undo record; otherwise the last-set command is popped, executed and recorded as the undo command, and exactly that one is removed |
| Command.RemoteControl.UndoButton | Command.ts:54-59 | with a record, its undo runs (the light goes off) and the record is cleared; without one nothing is logged; the stack is untouched |
| Command.Scenario | Command.ts:64-70 | set, press, undo logs "Light is on" then "Light is off" and leaves the light off; a second undo logs nothing |
| Command.StackOrder | Command.ts:42-52 | with two commands set for two distinct lights, the press switches on the second, last-set light and not the first; the undo switches the second off again; exactly the first command remains queued |
| ChainResponsibility.Dispatch | ChainResponsibility.ts:20-28 | a request is handled exactly when some handler in the chain accepts it; the handler chosen accepts it and no earlier one does |
| ChainResponsibility.CanHandle | ChainResponsibility.ts:35-37 | `canHandle` of handler A (B, C) holds exactly for the request "A" (resp. "B", "C"); no contract of its own, and AcceptsExactlyOne and Dispatch state what follows from it |
| ChainResponsibility.AcceptsExactlyOne | ChainResponsibility.ts:34-62 | the concrete handlers accept "A", "B" and "C" respectively, so no request is accepted by two kinds |
| ChainResponsibility.Handler.constructor | ChainResponsibility.ts:14 | a new handler has no successor |
| ChainResponsibility.Handler.SetNext | ChainResponsibility.ts:16-18 | the link is replaced, so the last call wins |
| ChainResponsibility.Handler.HandleRequest | ChainResponsibility.ts:20-28 | along the walk of `nextHandler` links from this handler, up to the first handler that accepts or has no successor (the links may be cyclic), the outcome and the single logged line are those of Dispatch over the walk's handlers; the recursion is bounded by the walk's length |
| ChainResponsibility.DispatchABC | ChainResponsibility.ts:70-81 | on the chain A, B, C the requests "A", "B", "C" go to A, B, C, and "D" is unhandled |
| ChainResponsibility.BuildChain | ChainResponsibility.ts:66-71 | the driver's setNext calls produce the null-terminated chain A, B, C |
| ChainResponsibility.Scenario | ChainResponsibility.ts:66-81 | the log is "ConcreteHandlerB handles request: B", "ConcreteHandlerC handles request: C", "Request cannot be handled." |
| ChainResponsibility.HandlesBText | ChainResponsibility.ts:79 | the "B" line reads "ConcreteHandlerB handles request: B" |
| ChainResponsibility.HandlesCText | ChainResponsibility.ts:80 | the "C" line reads "ConcreteHandlerC handles request: C" |
| ChainResponsibility.CyclicChain | ChainResponsibility.ts:16-28 | with A and B linked to each other, a request "B" sent to A is handled by B, and the recursion ends |
| Mediator.RoutingIsAcyclic | Mediator.ts:20-31 | no action triggered by the routing table reports an event that triggers anything, so the notify/doX recursion ends |
| Mediator.RoutedEvents | Mediator.ts:20-31 | only "A" and "D" trigger reactions; "B", "C" and every other event trigger none |
| Mediator.Mediator.constructor | Mediator.ts:13-18 | both components are stored and their mediator is set to the new mediator |
| Mediator.Mediator.Notify | Mediator.ts:20-31 | the log is the routing-table reaction for the event: nothing when unrouted, else the header and then each routed action, in table order; `sender` plays no part; it requires only that the components it calls back have some mediator |
| Mediator.Component1.constructor | Mediator.ts:37-39 | a component starts with the mediator it is given, `null` by default |
| Mediator.Component1.SetMediator | Mediator.ts:41-43 | the mediator is replaced |
| Mediator.Component1.DoA | Mediator.ts:47-50 | the log is "does A", the reaction to A, then "Component 2 does C."; it requires a mediator whose component 2 has a mediator |
| Mediator.Component1.DoB | Mediator.ts:52-55 | the log is "Component 1 does B." only; it requires a mediator |
| Mediator.Component2.constructor | Mediator.ts:37-39 | a component starts with the mediator it is given, `null` by default |
| Mediator.Component2.SetMediator | Mediator.ts:41-43 | the mediator is replaced |
| Mediator.Component2.DoC | Mediator.ts:59-62 | the log is "Component 2 does C." only; it requires a mediator |
| Mediator.Component2.DoD | Mediator.ts:64-67 | the log is "does D", the reaction to D, then B, then C; it requires a mediator whose two components have a mediator |
| Mediator.Scenario | Mediator.ts:73-81 | doA then doD log the seven lines in the order the demo's comments give |
| Mediator.SharedComponent | Mediator.ts:13-18 | when a second mediator takes over component 1, component 2's doD (through the first mediator) still logs D, the D reaction, B and C |
| Mediator.ReactsAText | Mediator.ts:22 | the reaction header for "A" reads "Mediator reacts on A and triggers following operations:" |
| Mediator.ReactsDText | Mediator.ts:27 | the reaction header for "D" reads "Mediator reacts on D and triggers following operations:" |
| Memento.Originator.constructor | Memento.ts:9-10 | the state starts out `undefined` |
| Memento.Originator.GetState | Memento.ts:12-14 | `getState` returns the current state (`undefined` before the first setState); no contract of its own, and the SetState and RestoreMemento contracts are stated through it |
| Memento.Originator.SetState | Memento.ts:16-18 | a following getState returns the state just set |
| Memento.Originator.CreateMemento | Memento.ts:21-23 | the snapshot holds the current state |
| Memento.Originator.RestoreMemento | Memento.ts:26-28 | the state becomes the snapshot's |
| Memento.MementoState | Memento.ts:39-41 | a memento's `getState` returns the state it was built with; no contract of its own, and CreateMemento and SnapshotIsFixed are stated through it |
| Memento.Caretaker.constructor | Memento.ts:46 | a new caretaker holds no mementos |
| Memento.Caretaker.GetMemento | Memento.ts:52-54 | the result is the memento added at that index; an index with no memento gives `undefined` |
| Memento.Caretaker.AddMemento | Memento.ts:48-50 | the memento is appended; the new last index gives it, and earlier indices give what they gave before |
| Memento.SaveThenRestore | Memento.ts:21-28 | restoring a memento just created leaves the state as it was |
| Memento.SnapshotIsFixed | Memento.ts:32-41 | a memento keeps the state it was created with after later setState calls |
| Memento.Scenario | Memento.ts:58-68 | save "State 1", set "State 2", restore memento 0: getState logs "State 1" |
| Iterator.ResultAt | Iterator.ts:59-64 | at index k, `done` holds exactly when k is at least the length; otherwise the value is item k, and past the end it is `undefined` |
| Iterator.Collection.constructor | Iterator.ts:36-38 | the collection holds the given items |
| Iterator.Collection.CreateIterator | Iterator.ts:40-42 | a new iterator over this collection at index 0 |
| Iterator.Collection.GetItems | Iterator.ts:44-46 | `getItems` returns the items the collection was built with; no contract of its own, and Next is stated through it |
| Iterator.CollectionIterator.constructor | Iterator.ts:54-57 | a new iterator starts at index 0 |
| Iterator.CollectionIterator.Next | Iterator.ts:59-64 | it returns the result for the current index and increments the index, past the end too; the collection is untouched |
| Iterator.Results | Iterator.ts:59-64 | on a new iterator, call k returns item k with `done` false while k is below the length; call n+1 and every later call report `done` |
| Iterator.Drive | Iterator.ts:68-75 | the driver loop logs exactly the collection's items, in order, and stops |
| Iterator.Scenario | Iterator.ts:68-75 | over [1, 2, 3, 4, 5] the driver logs 1, 2, 3, 4, 5 |
| Flyweight.ConcreteFlyweight.constructor | Flyweight.ts:16-18 | the shared state is the one given |
| Flyweight.ConcreteFlyweight.DoOperation | Flyweight.ts:20-22 | `operation` logs the shared state beside the unshared one |
| Flyweight.FlyweightFactory.constructor | Flyweight.ts:26 | the table starts empty |
| Flyweight.FlyweightFactory.GetFlyweight | Flyweight.ts:28-33 | a missing key gets a new flyweight with that shared state, stored under that key alone; a present key returns the stored object and leaves the table unchanged; every entry carries its own key |
| Flyweight.Scenario | Flyweight.ts:38-47 | both 'key1' requests give the same object and 'key2' a different one; the operations log key1/state1, key1/state2, key2/state3 |
| Flyweight.ScenarioText | Flyweight.ts:21 | the first operation line reads "Shared state: key1, Unshared state: state1" |
| Flyweight.GetFlyweightAsWritten | Flyweight.ts:26-33 | the object-literal table as written: own keys hit, keys inherited from Object.prototype also hit, any other key creates and stores a flyweight |
| Flyweight.AsWrittenToStringIsNotAFlyweight | Flyweight.ts:29-32 | on an empty table, "toString" returns the inherited member and stores nothing |
| Flyweight.AsWrittenAgreesOffPrototype | Flyweight.ts:28-33 | for keys outside Object.prototype, the as-written table returns and stores a flyweight for the key, as GetFlyweight does |
| ObjectPool.ObjectPool.constructor | ObjectPool.ts:15-23 | the pool holds exactly `size` new, pairwise distinct instances (none when `size` is not positive) |
| ObjectPool.ObjectPool.Acquire | ObjectPool.ts:32-40 | on a non-empty pool, the last instance is returned and removed (LIFO); on an empty pool, a new instance is returned and the pool stays empty |
| ObjectPool.ObjectPool.Release | ObjectPool.ts:42-45 | the instance is appended with no duplicate or capacity check |
| ObjectPool.ReleaseThenAcquire | ObjectPool.ts:42-45 | release x, then acquire, returns x and leaves the pool as it was |
| ObjectPool.Scenario | ObjectPool.ts:50-63 | two acquires give different instances; after releasing both, the next acquire gives back obj2 |
| Multiplexer.RunAllAppend | Multiplexer.ts:16 | running two queues one after the other logs the same as running their concatenation |
| Multiplexer.Multiplexer.constructor | Multiplexer.ts:9 | a new multiplexer has an empty queue |
| Multiplexer.Multiplexer.AddTask | Multiplexer.ts:11-13 | the task is appended to the queue |
| Multiplexer.Multiplexer.ExecuteTasks | Multiplexer.ts:15-18 | every queued task runs once, in insertion order, and the queue is then empty |
| Multiplexer.Scenario | Multiplexer.ts:22-36 | the three tasks log "Задача 1", "Задача 2", "Задача 3", and a second execute logs nothing |
| State.ConcreteState.constructor | State.ts:12-14 | a state object keeps its mode and the context it was created for |
| State.ConcreteState.Handle | State.ts:20-32 | state A logs mode A and installs a new state B in its own context; state B logs mode B and installs a new state A there |
| State.Context.constructor | State.ts:38-40 | a new context is in a state A that points back to it |
| State.Context.SetState | State.ts:42-44 | the state is replaced and nothing else changes |
| State.Context.Request | State.ts:46-48 | the current state's mode is logged, and the context that state belongs to (not necessarily this one) gets a new state of the other mode |
| State.Requests | State.ts:46-56 | after n requests on a new context the log alternates A, B, A, …, and the state is A exactly when n is even |
| State.Scenario | State.ts:52-56 | three requests log mode A, mode B, mode A |
| State.CrossContext | State.ts:9-48 | after ctx1.setState(new ConcreteStateB(ctx2)), ctx1.request() logs mode B, moves ctx2 to A and leaves ctx1 in B |
| Proxy.RealImage.constructor | Proxy.ts:13-16 | the image keeps the file name it was given |
| Proxy.RealImage.Display | Proxy.ts:22-24 | `display` logs the image's file |
| Proxy.LoadRealImage | Proxy.ts:13-20 | creating a RealImage logs the load of that file and yields a new image for it |
| Proxy.ImageProxy.constructor | Proxy.ts:32-34 | a new proxy holds no real image |
| Proxy.ImageProxy.Display | Proxy.ts:36-41 | the first call loads a new image of the proxy's file and then displays it; later calls keep the image and only display |
| Proxy.DisplayTimes | Proxy.ts:36-41 | over k ≥ 1 displays of a new proxy, the log is one load, first, then k displays, all of the given file name |
| Proxy.Scenario | Proxy.ts:46-53 | image1 loads once and displays twice, then image2 loads and displays on its own |
| Proxy.ScenarioText | Proxy.ts:19-23 | the driver's load and display lines read "Loading image from disk: …" and "Displaying image: …" with the file name |
| Interpreter.InterpretIsSignedSum | Interpreter.ts:9-51 | every tree evaluates to the sum of its literals, where a subtraction negates exactly the literals of its right operand |
| Interpreter.Interpret | Interpreter.ts:9-51 | `interpret`: a number gives itself, an addition the sum and a subtraction the difference of its operands; no contract of its own, and InterpretIsSignedSum and SubtractOperandOrder state its meaning |
| Interpreter.SubtractOperandOrder | Interpreter.ts:48-50 | subtraction takes its operands in order: swapping them negates the value |
| Interpreter.Example | Interpreter.ts:54-60 | (10 + 5) − 2 interprets to 13 |
| Decorator.PriceCountsElectricLayers | Decorator.ts:8-44 | a car with k electric layers costs 10000 + 5000·k, whatever plain decorators are interleaved |
| Decorator.GetPrice | Decorator.ts:8-44 | `getPrice` of the basic car, the forwarding decorator and the electric decorator; no contract of its own, and PriceCountsElectricLayers states its value |
| Decorator.DescriptionListsElectricLayers | Decorator.ts:8-48 | the description is "Basic car" followed by one ", electric car" per electric layer |
| Decorator.GetDescription | Decorator.ts:8-48 | `getDescription` of the three classes; no contract of its own, and DescriptionListsElectricLayers states its value |
| Decorator.ForwardingDecorator | Decorator.ts:27-33 | a plain CarDecorator changes neither price nor description |
| Decorator.Example | Decorator.ts:52-58 | the basic car gives 10000 and "Basic car"; wrapped once as electric, it gives 15000 and "Basic car, electric car" |

## Left out

- Console output is not written anywhere. Each operation returns its lines, and
  `Text` functions give the wording of the structured ones.
- `EventHandler.ts` builds its event with `new Date()` and formats it with
  `toISOString` (EventHandler.ts:49). Neither is modelled: the handler
  closures are opaque. The emitter records which handler it invoked and with
  what data.
- Re-entrancy is not modelled. In the source, an observer, handler or task
  could change the list that `notify`, `emit` or `executeTasks` is iterating
  over. Here callbacks only contribute output, and `Multiplexer.ExecuteTasks`
  iterates over the queue as it was when the call began.
- `Math.random()` ids of pooled objects (ObjectPool.ts:25-30) are not modelled.
  An instance is an object known only by its identity.
- A fractional pool `size` is not modelled: `size` is an integer.
- JavaScript `number` semantics are not modelled in `Interpreter.ts` and
  `Decorator.ts` (doubles, rounding, overflow). Values are unbounded integers.
- Iterator indices beyond 2^53 are not modelled: the index is a natural number.
- `Light` in the source has no field. The on/off condition it prints is made
  explicit as `isOn`, which starts out off.
- `Command` has only the `LightOnCommand` variant, the only implementation in the
  source. The interfaces `Observer`, `Subject`, `Command`, `Flyweight`, `Image` and
  `Iterator`, and the abstract classes `Handler` and `State`, become datatypes or
  concrete classes, since their only implementations are the ones modelled.
- ChainResponsibility.Handler.HandleRequest: requires a finite walk of
  `nextHandler` links ending at a handler that accepts the request or has no
  successor. Exactly then does the source's recursion stop; a cyclic wiring in
  which no handler accepts the request recurses until the stack overflows, and
  that run is not modelled.
- Mediator.Mediator.Notify: requires that each component it calls back has a
  mediator; Mediator.Component1.DoA, DoB and Mediator.Component2.DoC, DoD
  require a mediator of their own and what their event then needs. The source
  dereferences `this.mediator!` and throws a TypeError when none was set; that
  error path is not modelled.
- Memento.Originator.RestoreMemento: takes a memento. In the source,
  `restoreMemento(caretaker.getMemento(i))` with no memento at `i` passes
  `undefined` and throws a TypeError at `memento.getState()` (Memento.ts:27).
  GetMemento returns `None` there, and the throw is not modelled.
- State.Context.Request: requires a current state. The field is nullable only
  so that the constructor can create a first state that points back to the
  context; after construction it is never null.
- Mutex.ts is a timer-polling lock whose point is asynchronous concurrency.
- utility.ts is floating-point arithmetic with no logic of its own.
- Strategy.ts has empty sort bodies, so there is no algorithm to model.
- Singleton.ts uses process-global static state with a random payload.
- The call-forwarding demos (Visitor.ts, TemplateMethod.ts, Facade.ts,
  Bridge.ts, Adapter.ts, Factory.ts, AbstractFactory.ts,
  DependencyInjection.ts, NullObject.ts) only print fixed messages.
- Archiver.ts is placeholder string prefixes.
- Builder.ts has only setters and getters.
- Prototype.ts depends on `Object.create`/`Object.assign` semantics.

## Findings

| source | as written | input that shows it | evidently intended | confidence | as-written member | corrected member |
|---|---|---|---|---|---|---|
| Flyweight.ts:26-33 | `flyweights` is an object literal `{}`, and `getFlyweight` tests `!this.flyweights[key]`. Keys that name `Object.prototype` members are found as inherited, truthy properties. | `factory.getFlyweight("toString")` on a new factory returns `Object.prototype.toString` and stores nothing; `.operation(...)` on it then throws | every key yields a flyweight whose shared state is that key, created once and stored under it | high (not executed) | Flyweight.GetFlyweightAsWritten, Flyweight.AsWrittenToStringIsNotAFlyweight | Flyweight.FlyweightFactory.GetFlyweight |
