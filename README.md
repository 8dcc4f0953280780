# PlayingWithSwift, modelled in Dafny

PlayingWithSwift is a set of Swift playgrounds, each a standalone teaching
snippet. This project models the parts that have logic of their own.

- **`Bindable<Value>`** (`bindable_values.dfy`, with client scenarios in `bindable_scenarios.dfy`) is an observable value holder.
  It keeps the last published value and an ordered list of observations.
  Each observation holds its owner weakly and writes a projection of the
  value into one property of the owner. Binding delivers the current value
  at once, if there is one. `update(with:)` runs every observation in
  insertion order, and in the same pass it drops the observations whose
  owner has been deallocated. The class is modelled with a sequence field.
  The owners live in an `Owners` environment:
  - `alive` is the set of objects that reference counting still retains;
  - `fields` holds the owners' properties that bindings write;
  - `log` records every handler invocation, in order.
- **Optional extensions** (`extending_optionals.dfy`): `orThrow`,
  `isNilOrEmpty`, `withPredicate`, and the two versions each of image
  preparation and search handling, proved to agree.
- **Swift 5 features** (`swift5.dfy`):
  - the status check in `fetchUnreadCount`;
  - the failable `User.init?(id:)`;
  - the hand-written `isMultiple(ofInteger:)`, with the parity checks built on the standard `isMultiple(of:)`;
  - the custom interpolation of `SomeUser`.
- **Functions as delegates** (`functions_as_delegates.dfy`):
  - an alert view that holds a weak delegate;
  - the computed `timestamps` property;
  - the `Robot` state property and its observer;
  - two custom subscripts;
  - an escaping completion handler that is stored but never called.
- **Codable** (`codable.dfy`): custom `encode(to:)` and `init(from:)` over a
  keyed container, which is modelled as a map from key strings to encoded
  values.

`wrappers.dfy` holds `Option` and `Result`. They stand for Swift's `Optional`,
for `Result`, and for what a `throws` function returns or throws.

Two facts about the code shape the model of `Bindable`:
- Observations are kept in an array, not keyed by owner. Binding the same owner and property twice gives two observations, and both fire on every update.
- `bind` has three overloads: into a `T` property, into a `T?` property, and through a `transform`.

## Model

| member | source | states |
|---|---|---|
| BindableValues.Bindable.constructor | BindableValues.playground/Contents.swift:95-100 | `lastValue` is the given optional value, nil by default, and there are no observations |
| BindableValues.Bindable.AddObservation | BindableValues.playground/Contents.swift:102-120 | appends exactly one observation at the end; when a value is set, the handler runs once on it right away (one log entry, one property written), and when it is nil nothing happens to the owners |
| BindableValues.RunObservations | BindableValues.playground/Contents.swift:112-124 | the filtering pass runs each observation once, in insertion order: it returns exactly the observations of live owners, logs exactly their deliveries in order, writes them into the owners' properties in order, and leaves liveness unchanged |
| BindableValues.Bindable.Update | BindableValues.playground/Contents.swift:122-125 | `lastValue` becomes the new value whatever it held; the observation list becomes the old list filtered to live owners; the log grows by exactly the deliveries of the kept observations, in order; the owners' properties are the old ones overwritten by those deliveries in order |
| BindableValues.Bindable.Bind | BindableValues.playground/Contents.swift:127-134 | appends one observation that writes `projection(value)`; with a value present, writes `projection(lastValue)` into the owner's property at once |
| BindableValues.Bindable.BindOptional | BindableValues.playground/Contents.swift:135-142 | as `Bind`, but into an optional property, so the projection is written wrapped as `some` |
| BindableValues.Bindable.BindTransform | BindableValues.playground/Contents.swift:144-153 | as `Bind`, but writes `transform(projection(value))` into an optional property |
| BindableValues.Owners.Write | BindableValues.playground/Contents.swift:117 | a handler invocation writes one property of a live owner and is logged; nothing else changes |
| BindableValues.Owners.Allocate | BindableValues.playground/Contents.swift:112 | a new object gets an identity never handed out before, so a released object is never brought back to life through its weak reference; it is alive, and properties and log are untouched |
| BindableValues.Owners.Release | BindableValues.playground/Contents.swift:112-115 | after deallocation the owner is no longer alive, so its weak reference reads nil; properties and log are untouched |
| BindableValues.LiveMembers | BindableValues.playground/Contents.swift:113-118 | an observation survives the pruning pass if and only if it was in the list and its owner is alive |
| BindableValues.LiveLength | BindableValues.playground/Contents.swift:124 | pruning never lengthens the list; it keeps the length exactly when every owner is alive; in that case the list is unchanged |
| BindableValues.LiveConcat | BindableValues.playground/Contents.swift:124 | pruning distributes over concatenation, so kept observations keep their relative order |
| BindableValues.LiveIdempotent | BindableValues.playground/Contents.swift:124 | pruning an already pruned list changes nothing |
| BindableValues.DeliveriesAt | BindableValues.playground/Contents.swift:112-119 | there is one handler invocation per observation run, and the k-th one is the k-th observation's write of the value |
| BindableValues.UpdateDeliversToLiveOnly | BindableValues.playground/Contents.swift:113-118 | in one update every delivered owner is alive, every live observation delivers its write of the value, and no observation of a dead owner is kept |
| BindableValues.SingleObservationUpdate | BindableValues.playground/Contents.swift:112-124 | an update over one observation of a live owner keeps it, invokes its handler exactly once, and writes its projection of the value into the owner's property |
| BindableValues.WriteAllTwice | BindableValues.playground/Contents.swift:130-132 | applying the same property writes a second time changes no property |
| BindableValues.UpdateTwice | BindableValues.playground/Contents.swift:122-125 | a second update with the same value and the same owners prunes nothing more and makes the same handler invocations again (no deduplication), and it leaves every property as the first update left it |
| ExtendingOptionals.CheckSize | ExtendingOptionals.playground/Contents.swift:40-43 | returns the data itself exactly when it holds more than 40 bytes, nil otherwise |
| ExtendingOptionals.PrepareImageForUpload | ExtendingOptionals.playground/Contents.swift:24-34 | returns the converted data exactly when conversion succeeds with more than 40 bytes, and throws `preparationFailed` otherwise |
| ExtendingOptionals.PrepareImageForUploadV2 | ExtendingOptionals.playground/Contents.swift:58-62 | the same outcome through `flatMap(checkSize)` and `orThrow(.preparationFailed)` |
| ExtendingOptionals.OrThrow | ExtendingOptionals.playground/Contents.swift:48-56 | succeeds exactly when the optional is present, with its value; otherwise fails with the error the error expression yields |
| ExtendingOptionals.OrThrowIgnoresErrorWhenPresent | ExtendingOptionals.playground/Contents.swift:49-54 | for a present value the result does not depend on the error expression |
| ExtendingOptionals.PrepareImageVersionsAgree | ExtendingOptionals.playground/Contents.swift:24-62 | the guard version and the `flatMap`/`orThrow` version agree for every image and every conversion |
| ExtendingOptionals.IsNilOrEmpty | ExtendingOptionals.playground/Contents.swift:80-84 | true exactly for nil and for an empty collection |
| ExtendingOptionals.WithPredicate | ExtendingOptionals.playground/Contents.swift:115-127 | present exactly when the input is present and satisfies the predicate, and then equal to the input |
| ExtendingOptionals.WithPredicateChain | ExtendingOptionals.playground/Contents.swift:136-138 | chaining two `withPredicate` calls equals one call with the conjunction |
| ExtendingOptionals.HandleSearch | ExtendingOptionals.playground/Contents.swift:108-113 | `performSearch` is called exactly when the text is present and longer than two characters, and then with that text |
| ExtendingOptionals.HandleSearchV2 | ExtendingOptionals.playground/Contents.swift:129-132 | the same cases and the same query through `withPredicate` and `map` |
| ExtendingOptionals.HandleSearchVersionsAgree | ExtendingOptionals.playground/Contents.swift:108-113 | `handleSearch` and `handleSearchV2` (lines 129-132) call `performSearch` in the same cases with the same query: for every text |
| Swift5.CheckStatus | Swift5.playground/Contents.swift:28-32 | success with the status itself exactly when 200 <= status < 300, `serverFailure` otherwise |
| Swift5.FetchUnreadCount | Swift5.playground/Contents.swift:18-33 | a string that is not a URL gives `badURL`; otherwise the result succeeds exactly when the status is 2xx and fails with `serverFailure` when it does not |
| Swift5.FetchUnreadCountNeverSucceeds | Swift5.playground/Contents.swift:18-33 | the handler receives `badURL` for a string that is not a URL, and otherwise always `serverFailure`, because the status is hard-coded to 305 |
| Swift5.NewUser | Swift5.playground/Contents.swift:99-104 | fails exactly when the id is below 1; on success the stored id is the argument |
| Swift5.Rem | Swift5.playground/Contents.swift:149 | Swift's `%` truncates: the remainder has the sign of the dividend, a magnitude below the divisor's, and differs from the dividend by a multiple of the divisor, which fixes it uniquely |
| Swift5.RemZeroIffDivides | Swift5.playground/Contents.swift:149-154 | for a positive divisor the remainder is zero exactly when the divisor divides the number, negative numbers included |
| Swift5.IsMultipleOfInteger | Swift5.playground/Contents.swift:144-155 | true exactly when the argument is positive and divides the number |
| Swift5.IsMultipleOf | Swift5.playground/Contents.swift:162 | the standard check: true exactly when the argument divides the number, so zero is a multiple only of zero |
| Swift5.IsMultipleOfIntegerMeaning | Swift5.playground/Contents.swift:144-155 | true exactly when the argument is positive and divides the number; false for `0.isMultiple(ofInteger: 0)` |
| Swift5.OldAndNewMultiples | Swift5.playground/Contents.swift:141-162 | the hand-written check and the standard `isMultiple(of:)` agree for positive arguments and differ at zero |
| Swift5.IsEven | Swift5.playground/Contents.swift:167-169 | true exactly when 2 divides the number |
| Swift5.IsOdd | Swift5.playground/Contents.swift:171-173 | true exactly when 2 does not divide the number |
| Swift5.ParityMeaning | Swift5.playground/Contents.swift:166-174 | `isEven` means "multiple of 2" (also in the hand-written sense), and `isOdd` is its negation |
| Swift5.ParityAlternates | Swift5.playground/Contents.swift:166-174 | the successor of a number is even exactly when the number is odd |
| Swift5.Decimal | Swift5.playground/Contents.swift:194 | an `Int` in interpolation is non-empty text: a leading '-' exactly for negatives, then digits with no leading zero unless the number is 0 |
| Swift5.DecimalRoundTrip | Swift5.playground/Contents.swift:194 | the decimal text that interpolation writes for an `Int` reads back as that integer |
| Swift5.Interpolate | Swift5.playground/Contents.swift:192-196 | the text is "My name is ", the name, " and I'm " and the age in decimal, in that order and nothing else |
| Swift5.InterpolationReadsBack | Swift5.playground/Contents.swift:192-196 | interpolating a user yields "My name is ", the name, " and I'm " and the age in decimal, from which the age reads back |
| FunctionsAsDelegates.ViewController.constructor | FunctionsAsDelegates.playground/Contents.swift:36-39 | creates an alert with buttons OK and Cancel and becomes its delegate |
| FunctionsAsDelegates.ViewController.DidTapButton | FunctionsAsDelegates.playground/Contents.swift:41-43 | records one tap at the given index |
| FunctionsAsDelegates.AlertView.constructor | FunctionsAsDelegates.playground/Contents.swift:24-26 | keeps the given buttons, OK and Cancel by default; no delegate yet |
| FunctionsAsDelegates.AlertView.Fire | FunctionsAsDelegates.playground/Contents.swift:28-30 | with a delegate set, it taps button 1 on it once; without one, nothing changes |
| FunctionsAsDelegates.Timestamps | FunctionsAsDelegates.playground/Contents.swift:61-66 | same length as the record; element k is the second component of record k |
| FunctionsAsDelegates.Robot.constructor | FunctionsAsDelegates.playground/Contents.swift:97-109 | both `stateObserver` and `stateValue` start as `.stopped` |
| FunctionsAsDelegates.Robot.CurrentState | FunctionsAsDelegates.playground/Contents.swift:99-101 | the `state` getter reads `stateValue` |
| FunctionsAsDelegates.Robot.SetStateObserver | FunctionsAsDelegates.playground/Contents.swift:89-93 | assigning the observed property stores the value |
| FunctionsAsDelegates.Robot.SetState | FunctionsAsDelegates.playground/Contents.swift:98-105 | the `state` setter as written changes nothing, so a later read still returns the old `stateValue` |
| FunctionsAsDelegates.Robot.SetStateStoring | FunctionsAsDelegates.playground/Contents.swift:95-105 | the setter as intended: afterwards `state` reads the assigned value |
| FunctionsAsDelegates.ElementsAt | FunctionsAsDelegates.playground/Contents.swift:156-164 | the result is as long as the index list and element k is the element at index k of the list, so order and duplicates are kept |
| FunctionsAsDelegates.CharacterAt | FunctionsAsDelegates.playground/Contents.swift:171-175 | for 0 <= i < count, walking i characters from the start gives the character at offset i |
| FunctionsAsDelegates.AgeRequest.constructor | FunctionsAsDelegates.playground/Contents.swift:226-228 | `sum` and `completionHandler` start as nil |
| FunctionsAsDelegates.AgeRequest.GetSumOf | FunctionsAsDelegates.playground/Contents.swift:230-236 | stores the handler without calling it, so `sum` is unchanged although the handler would set it; the dropped local is the sum of the array |
| FunctionsAsDelegates.AgeRequest.RunCompletionHandler | FunctionsAsDelegates.playground/Contents.swift:239-243 | running the stored handler with a sum would store that sum, which is what `getSumOf` never does |
| FunctionsAsDelegates.AgeRequest.DoSomething | FunctionsAsDelegates.playground/Contents.swift:238-244 | `sum` stays what it was (nil for a new request), and the handler that would store the sum is now stored |
| Codable.KeyedEncodingContainer.constructor | Codable.playground/Contents.swift:23 | `encoder.container(keyedBy:)` hands out an empty container |
| Codable.KeyedEncodingContainer.Encode | Codable.playground/Contents.swift:128 | encoding a value for a key sets exactly that key |
| Codable.DecodeString | Codable.playground/Contents.swift:135 | succeeds exactly when the key holds a string, with that string; a missing key throws `keyNotFound`, a null `valueNotFound` and any other value `typeMismatch` |
| Codable.DecodeIfPresentString | Codable.playground/Contents.swift:167 | nil exactly when the key is absent or null; a string when the key holds one; any other value throws `typeMismatch` |
| Codable.DecodeInt | Codable.playground/Contents.swift:170 | succeeds exactly when the key holds an integer, with that integer; a missing key throws `keyNotFound`, a null `valueNotFound` and any other value `typeMismatch` |
| Codable.DecodeDouble | Codable.playground/Contents.swift:137-138 | succeeds exactly when the key holds a number, with that number; a missing key throws `keyNotFound`, a null `valueNotFound` and any other value `typeMismatch` |
| Codable.EncodedCoordinate | Codable.playground/Contents.swift:7-10 | `Coordinate`'s synthesized `encode(to:)` writes a nested container with exactly the keys `latidude` and `longitude`, holding the two numbers |
| Codable.EncodePlacemark | Codable.playground/Contents.swift:22-27 | writes exactly the keys `name` and `coordinate`: the name, and the coordinate as a nested container |
| Codable.DecodeCoordinate | Codable.playground/Contents.swift:7-10 | the synthesized decoder succeeds exactly when the value is a container holding numbers under `latidude` and `longitude`, and returns them; null gives `valueNotFound` and any other value `typeMismatch` |
| Codable.DecodePlacemark | Codable.playground/Contents.swift:12-19 | the synthesized decoder succeeds exactly when `name` holds a string and `coordinate` a decodable coordinate, and returns those; a missing key throws `keyNotFound`, `name` first |
| Codable.PlacemarkRoundTrip | Codable.playground/Contents.swift:12-27 | the synthesized decoder reads back what the custom encoder writes |
| Codable.StringValue | Codable.playground/Contents.swift:120-124 | the raw values of the coding keys are `name`, `lat` and `lon` |
| Codable.StringValueInjective | Codable.playground/Contents.swift:120-124 | the coding keys have the distinct key strings `name`, `lat` and `lon` |
| Codable.EncodePlaceMarkCoreLocation | Codable.playground/Contents.swift:126-131 | writes exactly the keys `name`, `lat` and `lon`, holding the name, the latitude and the longitude |
| Codable.DecodePlaceMarkCoreLocation | Codable.playground/Contents.swift:133-139 | succeeds exactly when `name` holds a string and `lat` and `lon` hold numbers, and returns them; a missing key throws `keyNotFound`, in the order name, lat |
| Codable.CoreLocationDecodeReadsOwnKeys | Codable.playground/Contents.swift:133-139 | decoding reads only `name`, `lat` and `lon`: two containers that agree on those keys decode alike |
| Codable.CoreLocationRoundTrip | Codable.playground/Contents.swift:126-139 | decoding what the encoder wrote gives back the name and the coordinates, even when other keys are also present |
| Codable.EncodeCodableEnum | Codable.playground/Contents.swift:155-163 | writes exactly one entry: `left` with the string, or `right` with the integer |
| Codable.DecodeCodableEnum | Codable.playground/Contents.swift:165-173 | succeeds exactly when `left` holds a string, or `left` is absent or null and `right` holds an integer; a string under `left` gives `.left` whatever `right` holds; otherwise an integer under `right` gives `.right`; a `left` of another type throws `typeMismatch(left)`; with `left` absent or null, a missing, null or mistyped `right` throws `keyNotFound`, `valueNotFound` or `typeMismatch` |
| Codable.EnumRoundTrip | Codable.playground/Contents.swift:155-173 | decoding what was encoded gives the same case with the same value |
| Codable.EnumLeftWins | Codable.playground/Contents.swift:167-168 | with both `left` and `right` present, decoding yields `.left` |

## Findings

| source | as written | input that shows it | evidently intended | confidence | as-written member | corrected member |
|---|---|---|---|---|---|---|
| FunctionsAsDelegates.playground/Contents.swift:95-105 | the `state` setter only prints and never stores `newValue`, although the comment presents the computed property as equivalent to the observed `stateObserver` | on a new `Robot`, `state = .moving` then reading `state` gives `.stopped`, while `stateObserver = .moving` reads back `.moving` | the setter stores `newValue` into `stateValue`, so `state` reads back what was assigned | medium; not executed | FunctionsAsDelegates.Robot.SetState, exhibited by FunctionsAsDelegates.ScenarioRobotSetterDiscards | FunctionsAsDelegates.Robot.SetStateStoring |

## Left out

- `UserLoader` and the two view controllers in BindableValues (lines 29-79 and 157-186). They depend on `DispatchQueue` timing, UIKit labels and `PlaygroundPage`.
- Reference counting is not modelled as memory management. An owner is alive while its id is in `Owners.alive`, and deallocation is the call `Owners.Release`.
- Swift key paths become a property name plus a projection function. The different property types of different bindings share one type `F`. `Stored` tells a `T` property from a `T?` property.
- A handler that re-enters the same `Bindable` during `update` (binding or updating from inside a handler) is not modelled. Handlers only write a property of their owner.
- The other playgrounds are not modelled: Closures, Adapter, Inheritance-Composition, OptionalMethodsInProtocols, Swizzle, ClassesVsStructs, MixedTypes and Weak&Unowned. They are demos made of prints, type declarations, reference-cycle plumbing or Objective-C runtime calls.
- `convertToData` (`UIImage.jpegData`) is a parameter: an opaque failable function from images to bytes.
- The border colouring in the form view controllers is UIKit and is not modelled.
- `performSearch` has an empty body. Calling it is modelled as the query it receives.
- The global `searchBar.text` becomes a parameter.
- OrThrow: the error expression is an autoclosure, evaluated only in the nil case. A pure model cannot observe when it is evaluated, so the contract says only that the result does not depend on the error expression when a value is present.
- `String.count` and `Character` count grapheme clusters. The model uses `seq<char>` and counts code points, in `HandleSearch` and `CharacterAt`.
- In Swift5, `URL(string:)` becomes the boolean `isURL`.
- Also left out of Swift5: the `print` calls, file reading through `Bundle` and `String(contentsOf:)`, raw strings, `compactMapValues`, `User.get` with `try?` flattening, and `showOld`. These are I/O or standard-library demonstrations.
- Swift's `Int` is 64 bits wide, and the model uses unbounded integers. No operation here overflows: `%` is only applied to a positive divisor.
- The standard `isMultiple(of:)` is not in this repository. It is modelled by its documented meaning: zero is a multiple only of zero, and otherwise the remainder must be zero.
- These FunctionsAsDelegates demos are not modelled: `Point.distanceFromOrigin` (floating point, lazy caching), the key-path demos, and the non-escaping `giveTheNumber` closure.
- The weak `AlertView.delegate` is a nullable field. It does not become `nil` by itself when the delegate is deallocated.
- `ViewController.didTapButton` only prints. The model records each tap instead.
- The other `print` calls in FunctionsAsDelegates are not modelled: those in `stateObserver`'s `didSet` and in the `state` setter (lines 91 and 103), and the completion handler's `print(sum)` (line 241). They are output only.
- `subscript(indexList:)` is modelled on sequences with `Int` indices. Out-of-range indices trap in Swift and are excluded by the precondition.
- The closure stored by `AgeRequest.doSomething` is the single handler `SumHandler.StoreSum`. Its `[weak self]` capture is not modelled: the request is assumed alive when the handler runs.
- FunctionsAsDelegates.AgeRequest.GetSumOf: does not model the trap that `sum += value` raises when the 64-bit sum overflows; the model's sum is unbounded.
- The JSON encode and decode functions in Codable (lines 40-76) are not modelled. Neither is JSON number conversion: an integer is not read as a `Double`.
- `Double` values are an opaque type parameter.
- Encoding is modelled as never failing, so the `throws` of `container.encode` has no error path.
- `decoder.container(keyedBy:)` failing on a value that is not keyed is not modelled: the decoders take the keyed map directly.
