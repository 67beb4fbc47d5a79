# Builder pattern: a verified model of the Skylark car builder

This project models the Builder creational pattern demo of `patterns/builder/builder.py`.
A `Car` is the product. It has three nullable text fields: `model`, `tires` and `engine`.
A `SkylarkBuilder` holds the car under construction, or none. It can replace that car with a fresh empty one.
It has three steps, and each writes one fixed literal into one field of the current car.
A `Director` holds one builder. `construct_car` runs create, model, tires and engine in that order. `get_car` hands back the builder's current car.

Two modules:

- `BuilderSpec` (`builder_spec.dfy`) is the value-level specification.
  - `CarParts` holds a car's three fields as a value.
  - `Option<CarParts>` is the builder's car slot.
  - `Apply` is one builder step on that slot. It returns `AttributeError` when an add step finds no car, as Python does on `None`. The error carries the slot, which the failing step leaves unchanged.
  - `Run` is a sequence of steps. It stops at the first error, as an uncaught exception does. The slot the error carries lets a caller that catches it continue from there.
  - Lemmas about these functions cover: the director's sequence, what a step does before and after a car exists, which values can ever appear in a car, and how a rendered car splits back into its fields.
- `Builder` (`builder.dfy`) holds the heap objects as classes.
  - Each mutating method states its whole new state: which object is fresh and which field changed.
  - It also ties the old and new state through `Apply` or `Run` (`SkylarkBuilder.State()` gives the builder's slot as a value).
  - `Car.ToString` is the pure rendering of `__str__`.

The abstract `Builder` base class only sets `car` to `None` (`__init__`) and creates a new `Car` (`create_new_car`).
`SkylarkBuilder` inherits both unchanged, so both are members of `SkylarkBuilder` here.

The model follows the code's own error behaviour and adds none:

- An add step called before `create_new_car` has no error kind of its own: Python raises `AttributeError` on `None`. The methods require a car; the value level names the failure `AttributeError`.
- Rendering has no "field not set" error: an unset field renders as `None`, and `Car.ToString` does the same. So a car with no field set and a car whose fields hold the text "None" render identically.

## Model

| member | source | states |
|---|---|---|
| `Builder.Car.constructor` | patterns/builder/builder.py:43-46 | A new car has all three fields unset (None). |
| `Builder.Car.ToString` | patterns/builder/builder.py:48-49 | Renders model, tires and engine in that order, separated by " \| ". When no field text contains '\|', splitting the result at " \| " gives back exactly the three field texts, in order, with None shown as "None". A full Skylark renders as "Skylark \| Regular tires \| Turbo Engine". An unset car renders as "None \| None \| None". |
| `Builder.SkylarkBuilder.constructor` | patterns/builder/builder.py:20-21 | A new builder has no car. |
| `Builder.SkylarkBuilder.CreateNewCar` | patterns/builder/builder.py:23-24 | The car becomes a freshly allocated car with every field unset. Any previous car is dropped, whatever it held, and that object itself is not modified (only the builder is in the frame). |
| `Builder.SkylarkBuilder.AddModel` | patterns/builder/builder.py:30-31 | Needs a current car. Sets its model to "Skylark". Tires, engine and the builder's car reference are unchanged. |
| `Builder.SkylarkBuilder.AddTires` | patterns/builder/builder.py:33-34 | Needs a current car. Sets its tires to "Regular tires". Model, engine and the car reference are unchanged. |
| `Builder.SkylarkBuilder.AddEngine` | patterns/builder/builder.py:36-37 | Needs a current car. Sets its engine to "Turbo Engine". Model, tires and the car reference are unchanged. |
| `Builder.Director.constructor` | patterns/builder/builder.py:4-5 | The director keeps the given builder. The field is a `const`, so it is never reassigned. |
| `Builder.Director.ConstructCar` | patterns/builder/builder.py:7-11 | Afterwards the builder holds a freshly allocated car whose fields are exactly the three Skylark literals. The new state is what the fixed step sequence yields from the old state. The previously held car object is untouched. |
| `Builder.Director.GetCar` | patterns/builder/builder.py:13-14 | Returns the builder's current car reference (null if none was created) and changes nothing. |
| `Builder.UnusedDirectorHasNoCar` | patterns/builder/builder.py:13-21 | A director over a never-used builder returns no car, and the call does not fail. |
| `Builder.BuildAndRender` | patterns/builder/builder.py:7-14 | Building through a director and rendering the car gives "Skylark \| Regular tires \| Turbo Engine". |
| `Builder.ConstructTwice` | patterns/builder/builder.py:7-14 | Two constructions return two distinct car objects. Both hold the Skylark fields, and the second construction does not disturb the first car. |
| `Builder.GetCarTwice` | patterns/builder/builder.py:13-14 | Two get_car calls with no construction between them return the same reference, the builder's car. |
| `BuilderSpec.Apply` | patterns/builder/builder.py:23-37 | A step fails with AttributeError exactly when it is an add step and there is no car. A failing step leaves the car slot as it was. A successful step always leaves a car. The result is a freshly emptied car exactly when the step is create_new_car. |
| `BuilderSpec.Run` | patterns/builder/builder.py:7-11 | A sequence of builder calls in which an AttributeError propagates and the remaining calls do not run. The empty sequence changes nothing. A sequence can raise only on a builder that has never had a car, and it then leaves the builder still without one. |
| `BuilderSpec.RunAppend` | patterns/builder/builder.py:7-11 | Running two call sequences one after the other is the same as running their concatenation. An uncaught error in the first sequence means the second does not run, and the slot the error reports is kept. |
| `BuilderSpec.ConstructAfterCaughtError` | patterns/builder/builder.py:7-11 | After a call sequence whose AttributeError the caller catches, the builder has no car, and construct_car from there still yields a complete Skylark. |
| `BuilderSpec.DirectorStepsBuildSkylark` | patterns/builder/builder.py:7-11 | From any builder state, with or without a car, the director's sequence ends with a Skylark car and never fails. |
| `BuilderSpec.ConstructAfterAnyHistory` | patterns/builder/builder.py:7-11 | After any earlier call sequence that did not raise, construct_car still yields a complete Skylark car. Each construction starts over. |
| `BuilderSpec.AddBeforeCreateFails` | patterns/builder/builder.py:30-37 | On a builder that never created a car, a call sequence starting with an add step raises AttributeError and leaves the builder without a car. |
| `BuilderSpec.CreatedNeverFails` | patterns/builder/builder.py:23-37 | Once a car exists, no sequence of steps raises, and the builder never goes back to having no car. |
| `BuilderSpec.OnlySkylarkParts` | patterns/builder/builder.py:30-37 | Starting from a car whose fields are each unset or the Skylark literal for that field, every call sequence keeps that so. The builder never writes any other value. |
| `BuilderSpec.Str` | patterns/builder/builder.py:49 | How the f-string shows a field: a text as itself and None as "None". The result is "None" exactly when the field is None or holds the text "None". |
| `BuilderSpec.FieldsRoundTrip` | patterns/builder/builder.py:48-49 | Three texts without '\|', joined with " \| ", split back into the same three texts in the same order. |

## Left out

- The abstract `Builder` is not a separate class or trait. Its two members are inherited unchanged by the only concrete builder and are modelled there. It declares no add steps, so a director over a bare `Builder` is not modelled.
- Duck typing: the Python director accepts any object with the four methods. Here its builder is a `SkylarkBuilder`, the only one the file defines.
- Builder.SkylarkBuilder.AddModel: requires a current car, where Python raises `AttributeError` on `None`; that exception is modelled only at the value level, by `BuilderSpec.Apply` and `BuilderSpec.Run` returning `AttributeError`.
- Builder.SkylarkBuilder.AddTires: requires a current car, where Python raises `AttributeError` on `None`; that exception is modelled only at the value level, by `BuilderSpec.Apply` and `BuilderSpec.Run` returning `AttributeError`.
- Builder.SkylarkBuilder.AddEngine: requires a current car, where Python raises `AttributeError` on `None`; that exception is modelled only at the value level, by `BuilderSpec.Apply` and `BuilderSpec.Run` returning `AttributeError`.
- Python lets any value be assigned to a car's attributes. Here the fields hold only text or None, the only values the file ever stores.
- Object lifetime and garbage collection are not modelled beyond reference identity, `fresh` and frames.
- There is no concurrency, I/O, printing or entry point in the file, and none is modelled.
