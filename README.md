# PCA9575 expander configuration, modelled in Dafny

ESPHome's `pca9575` component is the build-time front end of a driver for
the PCA9575 16-bit I2C GPIO expander. It does two things:

- It validates two kinds of configuration entry:
  - the expander: an id, an optional `pin_count`, and an I2C address that defaults to 0x20;
  - a pin on it: a reference to the expander, a number in 0..15, a mode that is exactly one of input and output, and an inversion flag.
  A second pass then checks each pin's number against its own expander's `pin_count`.
- It emits the code generator calls that create and wire the two C++ objects.

The model is split into three modules:

- `Pca9575` (`pca9575.dfy`) holds the schemas and validators. Each one is a total function. The schemas map a written entry to `Ok(validated)` or `Err(why)`. The final pin check returns `Pass` or `Fail(why)`, because the source's check returns nothing or raises. It also holds the cross-entry results:
  - a pin whose mode passes is accepted by both checks exactly when its number is in `0..min(15, pin_count - 1)`;
  - with `pin_count` 16, the only value the schema accepts, that range is 0..15;
  - with the written default 8, it is 0..7.
- `Pca9575Codegen` (`codegen.dfy`) holds the emission:
  - `ExpanderCode` and `PinCode` give, as pure functions, the ordered instruction lists that `to_code` and `pca9575_pin_to_code` produce;
  - `ReadExpanderCode` and `ReadPinCode` read a configuration back from those lists, which shows that emission loses no value;
  - the `CodeGen` class is the generator's output buffer, which the emitters append to one instruction at a time, as `cg.add` does. A pin's emission is split at its await: `PinDeclare` declares the pin's variable, and `PinBind` binds the parent and sets the rest once the parent exists. Other code, such as the parent's own, may come in between. The buffer's invariant `WellOrdered` guarantees that every parent binding comes after the declaration of the expander it names (`ParentDeclaredBefore`).
- `Decimal` (`decimal.dfy`) renders integers as Python's `str` does. The final check's error message needs this. A parser is included as its partner, so the model can prove that the message names exactly `count - 1`.

## Model

| member | source | states |
|---|---|---|
| Pca9575.ValidateMode | esphome/components/pca9575/__init__.py:47-52 | accepts exactly when input XOR output is set and then returns the mode unchanged; neither or both set is rejected with "Mode must be either input or output" |
| Pca9575.ModeSchema | esphome/components/pca9575/__init__.py:55-59 | the only mode names are input and output (any other name is rejected); an absent one is false; the result is accepted exactly when one of the two is set |
| Pca9575.PinNumberSchema | esphome/components/pca9575/__init__.py:57 | a pin number is accepted exactly when it is in 0..15, and it is then unchanged; otherwise the error names the value and the bounds 0 and 15 |
| Pca9575.PinSchema | esphome/components/pca9575/__init__.py:55-64 | a pin entry passes exactly when its number is in 0..15 and its mode passes; id, parent reference, number and inversion flag carry over unchanged, and the resulting mode is exactly one of input and output |
| Pca9575.PinFinalValidate | esphome/components/pca9575/__init__.py:67-70 | passes exactly when the pin number is strictly below the parent's pin count; a failure carries "Pin number must be in range 0-" followed by count - 1 |
| Pca9575.RangeMessageNamesLastPin | esphome/components/pca9575/__init__.py:70 | the failure message starts with the fixed prefix, and the rest reads back as exactly count - 1 |
| Pca9575.RangeMessageInjective | esphome/components/pca9575/__init__.py:70 | two different pin counts never give the same range error message |
| Pca9575.ValidatePin | esphome/components/pca9575/__init__.py:73-75 | the registered pair of checks: the pin schema, then the final check against the resolved parent; it accepts exactly when both pass and keeps the pin schema's result |
| Pca9575.AcceptedPinNumbers | esphome/components/pca9575/__init__.py:57-69 | for a pin whose mode passes, both checks accept exactly the numbers 0..min(15, pin_count - 1) |
| Pca9575.UsablePins | esphome/components/pca9575/__init__.py:57-69 | the set of usable numbers holds exactly the n that pass both the 0..15 range and n < pin_count |
| Pca9575.UsablePinCount | esphome/components/pca9575/__init__.py:26-70 | an expander offers min(16, pin_count) usable numbers, and none when the count is not positive; with 16, the only accepted count, they are exactly 0..15; with the written default 8, exactly 0..7 |
| Pca9575.BoundaryForSixteenPins | esphome/components/pca9575/__init__.py:67-70 | for a parent with 16 pins, pin 15 passes the final check and pin 16 fails with "Pin number must be in range 0-15" |
| Pca9575.PinCountSchema | esphome/components/pca9575/__init__.py:30 | an absent pin_count becomes the written default 8; a given value is accepted exactly when it is 16, and it is then kept unchanged |
| Pca9575.ExpanderSchema | esphome/components/pca9575/__init__.py:26-37 | an expander entry passes exactly when its pin_count passes; the id is kept, the pin count is 16 if given and 8 if absent, and the address is the given one or 0x20 |
| Pca9575Codegen.ExpanderCode | esphome/components/pca9575/__init__.py:40-44 | emits four calls on the expander's own variable, in a fixed order: declare, set_pin_count, register as component, register as I2C device; reading them back gives the same id, pin count and address |
| Pca9575Codegen.PinCode | esphome/components/pca9575/__init__.py:76-86 | emits five calls on the pin's own variable, in a fixed order: declare, set_parent, set_pin, set_inverted, set_flags; reading them back gives the same id, parent, number, inversion flag and mode |
| Pca9575Codegen.CodeIsInjective | esphome/components/pca9575/__init__.py:76-85 | two different expander configurations never emit the same code, and neither do two different pin configurations |
| Pca9575Codegen.ParentDeclaredBefore | esphome/components/pca9575/__init__.py:78-80 | in well-ordered emitted code, every set_parent call comes after the declaration of the PCA9575 component it names |
| Pca9575Codegen.CodeGen.Add | esphome/components/pca9575/__init__.py:42 | appends exactly one instruction to the output buffer, records any declaration it makes, and keeps the buffer well ordered |
| Pca9575Codegen.CodeGen.ExpanderToCode | esphome/components/pca9575/__init__.py:40-44 | the buffer grows by exactly the expander's code, and the expander becomes a resolvable parent |
| Pca9575Codegen.CodeGen.PinDeclare | esphome/components/pca9575/__init__.py:76-77 | with no condition on the parent, the buffer grows by exactly the pin's declaration (the first instruction of the pin's code), the pin's variable is declared and returned, and the set of resolvable parents is unchanged |
| Pca9575Codegen.CodeGen.PinBind | esphome/components/pca9575/__init__.py:78-85 | once the pin is declared and its parent resolves to a PCA9575 component, the buffer grows by exactly the rest of the pin's code: set_parent, set_pin, set_inverted, set_flags; declared variables and parents are unchanged |

## Left out

- PinCountSchema: when `pin_count` is absent, the model inserts the written default 8 and does not check it again against `one_of(16)`. Whether the config-validation library re-checks defaults is decided outside this file. The two facts are kept separate, and the final-check results are proved for any count, 8 and 16 included.
- ModeSchema: the mode part of `pins.gpio_base_schema` is not part of this model. It is modelled as a mapping restricted to the names input and output, in which an absent name reads as false. Any string shortcut that helper may accept is not modelled.
- PinSchema: `inverted` is an optional key of `pins.gpio_base_schema` that defaults to false. The model takes it as an always-present flag, so the step that fills in the default is not represented.
- PinSchema: when both the number and the mode are invalid, the model reports the number error. The generic schema library decides which error comes first, and that library is not part of this model.
- Error messages of the generic validators (`int_range`, `one_of`, unknown mode names) are abstract error values. Only the two messages this file writes itself are given as text.
- `cv.declare_id` and `cv.use_id` are not modelled: ids are plain strings, and resolving a pin's `pca9575` reference is a parameter of `ValidatePin` (its `parent`).
- The I2C address's own range check, and the fields of `COMPONENT_SCHEMA` and `i2c_device_schema` other than the address default, belong to the generic schema library. They are not modelled.
- `cg.new_Pvariable`, `cg.register_component` and `i2c.register_i2c_device` are single abstract instructions (`New`, `RegisterComponent`, `RegisterI2CDevice` with the address). What they expand to is not modelled.
- `pins.gpio_flags_expr` is not modelled: the `SetFlags` instruction carries the mode that the flags expression is derived from.
- CodeGen.PinBind: `await cg.get_variable(...)` suspends the pin's emission until its parent has been declared. The scheduler that decides when it resumes is not modelled. The call after the await is `PinBind`, and its precondition `c.parent in expanders` stands for the point of resumption.
- The module constants `CODEOWNERS`, `DEPENDENCIES` and `MULTI_CONF` have no behaviour in this file. They are not modelled.
- The C++ driver, I2C transactions and the chip's registers are not in this file. They are not modelled.
