# Exec-agent message envelopes and the workspace machine value object

This project models two small value-object cores of the Che workspace system
and proves properties of them in Dafny.

**Exec-agent operation model** (`Op`, in `op_model.dfy`). The exec-agent talks
to websocket clients in a lightweight form of JSON-RPC 2.0 (section 4 "Request
object", section 4.1 "Notification", section 5 "Response object", section 5.1
"Error object"). A `Request` names an operation and may carry an id. A
`Response` reports the result of one request. It echoes the request's id and
holds a body or an error, never both. An `Event` is an unsolicited
notification whose body is stamped with a time when the event is built. The id,
which is an untyped `interface{}` in Go, is a closed tagged value
`Absent | Str | Num`, so echoing it is a plain equality that keeps its kind.
`EventBody` is a class whose `SetTime` overwrites its `time` field.
`NewEvent` and `NewEventNow` are methods that stamp the caller's body in place
and return an event sharing that body. The clock reading `now` is a parameter.

**Workspace machine configuration** (`WorkspaceMachine`, in
`extended_machine.dfy`). `ExtendedMachine` holds a machine's agents, servers
and attributes, plus a persistence id. Java collections are objects
(`JavaList`, `JavaMap` in `java_util.dfy`), so the model can show the
difference between the constructors and the setters. The constructors copy
into fresh collections, so later changes by the caller are not seen. The
setters keep the caller's own collection, so later changes by the caller are
seen. `equals` and `hashCode` are structural over the three collections and
ignore the id. `hashCode` is `Objects.hash` with its 31-based combination
and 32-bit wrap-around written out (`JavaUtil.ObjectsHash`). The hash codes of
the collections themselves are a parameter (`ElementHashes`), so every hashing
property holds for any choice of them.

## Model

| member | source | states |
|---|---|---|
| Op.ReplyTo | exec-agent/op/model.go:68-86 | the response to a request carries the request's id unchanged (absent stays absent), has a body or an error but never both, and holds the error exactly when the operation failed |
| Op.OutcomeOf | exec-agent/op/model.go:80-85 | a valid response reports a failure exactly when its error is present |
| Op.ReplyRoundTrip | exec-agent/op/model.go:80-85 | the outcome can be read back from the reply built for it |
| Op.ValidResponseIsReply | exec-agent/op/model.go:71-85 | every response with body and error mutually exclusive is the reply to a request with its id and version |
| Op.ReplyKeepsIdKind | exec-agent/op/model.go:51-62 | a numeric id is never echoed as a string, nor a string id as a number |
| Op.EventBody.constructor | exec-agent/op/model.go:109-112 | a fresh body holds the zero time |
| Op.EventBody.SetTime | exec-agent/op/model.go:114-117 | the stored time becomes exactly the argument |
| Op.LastSetTimeWins | exec-agent/op/model.go:115-117 | after any non-empty sequence of SetTime calls the stored time is the last call's argument |
| Op.TimeAfterAppend | exec-agent/op/model.go:115-117 | two runs of SetTime calls compose, the second starting from the time the first left |
| Op.NewEventNow | exec-agent/op/model.go:119-125 | the body is stamped with the clock reading `now`; the event has the given type and the very body passed in; it is well formed exactly when the type is non-empty |
| Op.NewEvent | exec-agent/op/model.go:127-133 | the body is stamped with exactly `when`; the event has the given type and the very body passed in; it is well formed exactly when the type is non-empty |
| Op.SetTimeEach | exec-agent/op/model.go:115-117 | calling SetTime on one body for each instant of a sequence in turn leaves the time the fold gives, which is the last instant whenever there was a call |
| Op.RestampSharedBody | exec-agent/op/model.go:96-133 | two events built on one body share it, and the second stamp overwrites the first |
| JavaUtil.Int32 | wsmaster/che-core-api-workspace/src/main/java/org/eclipse/che/api/workspace/server/model/impl/ExtendedMachineImpl.java:111-113 | Java int arithmetic: the result is in int range, congruent to the input modulo 2^32, and equal to it when it is already in range |
| JavaUtil.ObjectsHash | wsmaster/che-core-api-workspace/src/main/java/org/eclipse/che/api/workspace/server/model/impl/ExtendedMachineImpl.java:111-113 | Objects.hash of a list of argument hashes is an int, and 1 for no arguments |
| JavaUtil.AllNullObjectsHash | wsmaster/che-core-api-workspace/src/main/java/org/eclipse/che/api/workspace/server/model/impl/ExtendedMachineImpl.java:111-113 | Objects.hash(null, null, null) is 31 * 31 * 31 |
| WorkspaceMachine.CopyServerConf | wsmaster/che-core-api-workspace/src/main/java/org/eclipse/che/api/workspace/server/model/impl/ExtendedMachineImpl.java:62 | copying a server configuration gives one equal to it |
| WorkspaceMachine.CopyServers | wsmaster/che-core-api-workspace/src/main/java/org/eclipse/che/api/workspace/server/model/impl/ExtendedMachineImpl.java:58-63 | the collected servers map has exactly the input's key set, each value the copy of the input's value |
| JavaUtil.ListsEqual | wsmaster/che-core-api-workspace/src/main/java/org/eclipse/che/api/workspace/server/model/impl/ExtendedMachineImpl.java:105 | Objects.equals on two list references holds exactly when both are null or both hold the same elements |
| JavaUtil.MapsEqual | wsmaster/che-core-api-workspace/src/main/java/org/eclipse/che/api/workspace/server/model/impl/ExtendedMachineImpl.java:106-107 | Objects.equals on two map references holds exactly when both are null or both hold the same entries |
| WorkspaceMachine.CopyCollections | wsmaster/che-core-api-workspace/src/main/java/org/eclipse/che/api/workspace/server/model/impl/ExtendedMachineImpl.java:55-66 | each null collection stays null; each non-null one becomes a fresh collection with the same contents, servers copied value by value |
| WorkspaceMachine.CopyServersEqual | wsmaster/che-core-api-workspace/src/main/java/org/eclipse/che/api/workspace/server/model/impl/ExtendedMachineImpl.java:58-63 | the collected servers map equals the input map |
| WorkspaceMachine.HashOf | wsmaster/che-core-api-workspace/src/main/java/org/eclipse/che/api/workspace/server/model/impl/ExtendedMachineImpl.java:111-113 | the hash of the three fields is a Java int |
| WorkspaceMachine.AllNullHash | wsmaster/che-core-api-workspace/src/main/java/org/eclipse/che/api/workspace/server/model/impl/ExtendedMachineImpl.java:111-113 | a machine with all three fields null hashes to 29791 whatever the element hashes |
| WorkspaceMachine.ExtendedMachine.View | wsmaster/che-core-api-workspace/src/main/java/org/eclipse/che/api/workspace/server/model/impl/ExtendedMachineImpl.java:40-48 | a field reads as absent exactly when its reference is null |
| WorkspaceMachine.ExtendedMachine.Empty | wsmaster/che-core-api-workspace/src/main/java/org/eclipse/che/api/workspace/server/model/impl/ExtendedMachineImpl.java:50 | the no-argument constructor leaves every field, the id included, null |
| WorkspaceMachine.ExtendedMachine.constructor | wsmaster/che-core-api-workspace/src/main/java/org/eclipse/che/api/workspace/server/model/impl/ExtendedMachineImpl.java:52-67 | a null argument leaves its field null; a non-null one yields a fresh collection with the same contents (servers copied value by value) |
| WorkspaceMachine.ExtendedMachine.FromMachine | wsmaster/che-core-api-workspace/src/main/java/org/eclipse/che/api/workspace/server/model/impl/ExtendedMachineImpl.java:69-71 | the copy has the original's agents, servers and attributes, each in a fresh collection |
| WorkspaceMachine.ExtendedMachine.GetAgents | wsmaster/che-core-api-workspace/src/main/java/org/eclipse/che/api/workspace/server/model/impl/ExtendedMachineImpl.java:73-76 | returns the current agents reference itself, not a copy |
| WorkspaceMachine.ExtendedMachine.GetServers | wsmaster/che-core-api-workspace/src/main/java/org/eclipse/che/api/workspace/server/model/impl/ExtendedMachineImpl.java:82-85 | returns the current servers reference itself, not a copy |
| WorkspaceMachine.ExtendedMachine.GetAttributes | wsmaster/che-core-api-workspace/src/main/java/org/eclipse/che/api/workspace/server/model/impl/ExtendedMachineImpl.java:91-94 | returns the current attributes reference itself, not a copy |
| WorkspaceMachine.ExtendedMachine.Equals | wsmaster/che-core-api-workspace/src/main/java/org/eclipse/che/api/workspace/server/model/impl/ExtendedMachineImpl.java:100-108 | true for the same object; false for null and for objects of other classes; true for another machine only when agents, servers and attributes are pairwise equal |
| WorkspaceMachine.ExtendedMachine.SetAgents | wsmaster/che-core-api-workspace/src/main/java/org/eclipse/che/api/workspace/server/model/impl/ExtendedMachineImpl.java:73-80 | the getter then returns the very list passed in; servers, attributes and id are unchanged |
| WorkspaceMachine.ExtendedMachine.SetServers | wsmaster/che-core-api-workspace/src/main/java/org/eclipse/che/api/workspace/server/model/impl/ExtendedMachineImpl.java:82-89 | the getter then returns the very map passed in; agents, attributes and id are unchanged |
| WorkspaceMachine.ExtendedMachine.SetAttributes | wsmaster/che-core-api-workspace/src/main/java/org/eclipse/che/api/workspace/server/model/impl/ExtendedMachineImpl.java:91-98 | the getter then returns the very map passed in; agents, servers and id are unchanged |
| WorkspaceMachine.ExtendedMachine.HashCode | wsmaster/che-core-api-workspace/src/main/java/org/eclipse/che/api/workspace/server/model/impl/ExtendedMachineImpl.java:110-113 | hashCode is a Java int |
| WorkspaceMachine.EqualsIffSameValue | wsmaster/che-core-api-workspace/src/main/java/org/eclipse/che/api/workspace/server/model/impl/ExtendedMachineImpl.java:100-108 | equals holds exactly when the other object is a machine with the same agents, servers and attributes; the id plays no part |
| WorkspaceMachine.EqualsReflexive | wsmaster/che-core-api-workspace/src/main/java/org/eclipse/che/api/workspace/server/model/impl/ExtendedMachineImpl.java:102 | every machine equals itself |
| WorkspaceMachine.EqualsNull | wsmaster/che-core-api-workspace/src/main/java/org/eclipse/che/api/workspace/server/model/impl/ExtendedMachineImpl.java:103 | no machine equals null |
| WorkspaceMachine.EqualsSymmetric | wsmaster/che-core-api-workspace/src/main/java/org/eclipse/che/api/workspace/server/model/impl/ExtendedMachineImpl.java:100-108 | equals is symmetric |
| WorkspaceMachine.EqualsTransitive | wsmaster/che-core-api-workspace/src/main/java/org/eclipse/che/api/workspace/server/model/impl/ExtendedMachineImpl.java:100-108 | equals is transitive |
| WorkspaceMachine.IdIgnored | wsmaster/che-core-api-workspace/src/main/java/org/eclipse/che/api/workspace/server/model/impl/ExtendedMachineImpl.java:100-113 | machines with the same three fields are equal and hash alike whatever their ids |
| WorkspaceMachine.EqualsImpliesSameHash | wsmaster/che-core-api-workspace/src/main/java/org/eclipse/che/api/workspace/server/model/impl/ExtendedMachineImpl.java:100-113 | equal machines have equal hash codes, for any element hashes |
| WorkspaceMachine.ConstructorIsolatesCaller | wsmaster/che-core-api-workspace/src/main/java/org/eclipse/che/api/workspace/server/model/impl/ExtendedMachineImpl.java:52-67 | after construction, adding to the caller's list or map leaves the machine's contents as they were |
| WorkspaceMachine.SetterSharesCallerList | wsmaster/che-core-api-workspace/src/main/java/org/eclipse/che/api/workspace/server/model/impl/ExtendedMachineImpl.java:73-80 | after setAgents, adding to the caller's list is seen through the machine |
| WorkspaceMachine.CopyEqualsOriginal | wsmaster/che-core-api-workspace/src/main/java/org/eclipse/che/api/workspace/server/model/impl/ExtendedMachineImpl.java:69-71 | a copy equals its original in both directions and shares none of its collections |

## Left out

- JSON encoding (struct tags, `json.RawMessage`, `omitempty`): params, results and error data are opaque byte payloads.
- Op.Id: a numeric id is a mathematical integer; JSON numbers decoded as Go float64 (fractions, precision loss) are not modelled, nor ids of other JSON kinds.
- Op.Error: the Error struct is declared outside model.go and is not part of this model; it is represented by the JSON-RPC 2.0 error object's code, message and optional data.
- Op.ReplyTo: model.go declares the envelopes but not the code that builds a response; the model builds it from the request and echoes the request's version, which that code may set differently.
- Op.Instant: time.Time internals (wall and monotonic clock, location) are not modelled; an instant is an integer and the zero time is 0.
- Op.NewEventNow: the call to time.Now() is the parameter `now`.
- Op.Event: the body is an EventBody; other implementations of the Periodical interface are not modelled, and the returned Event is a value rather than a pointer.
- The router, dispatcher, id correlation, event broadcast and connection handling are not among the modelled files.
- LanguageServerLauncher.java: an interface without logic whose purpose (launching language-server processes) is I/O.
- JPA annotations and persistence: the id is only a field the store would fill; nothing in the model generates it.
- WorkspaceMachine.ServerConf: ServerConf2Impl is not part of this model; a three-field record stands in for it, and its copy is the identity on values.
- WorkspaceMachine.ExtendedMachine.HashCode: the numeric hashCode of the lists and maps (and of ServerConf2Impl) is a parameter, so only Objects.hash's combination is concrete.
- WorkspaceMachine.ExtendedMachine.FromMachine: takes an ExtendedMachine rather than any implementation of the ExtendedMachine interface.
- Null list elements and null map keys or values are not modelled, because `seq<string>` and `map<string, _>` cannot hold them. Java accepts them for agents (`new ArrayList<>`) and attributes (`new HashMap<>`); only the servers path (`Collectors.toMap` with the ServerConf2Impl copy) rejects null values.
- A nil body makes NewEvent and NewEventNow panic, and a null machine makes the copy constructor throw a NullPointerException; the model's parameter types are non-null, so these two error paths are not modelled.
- toString: diagnostic formatting without a contract.

Two points where this code departs from JSON-RPC 2.0 or from what a caller might expect; the model follows the code:

- A request without an id: section 4.1 of JSON-RPC 2.0 says the Server MUST NOT reply to a Notification, but the comment on `Request.Id` (exec-agent/op/model.go:55-57) says the response then simply carries no id. `ReplyTo` gives such a request a response with an absent id.
- The event time: `NewEvent` accepts any instant, the zero time included, so an event's body time can be zero; the model stamps exactly what is given.
