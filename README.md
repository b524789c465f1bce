# expo_site front-end logic in Dafny

This project models the logic in the browser scripts of the expo site:

- the phone-number input mask of the contact form;
- the `validateField` rules of both copies of `script.js`:
  - the served copy in `static/`;
  - the application copy in `app/static/`, whose phone branch throws;
- `showFieldError` and `clearFieldError`, which manage the red border and the `.field-error` element;
- the light/dark theme switch;
- the animated particle field: its builder, density presets, resize rebuild and cursor repulsion.

Modules:

| file | module | models |
|---|---|---|
| `js_text.dfy` | `JsText` | the JavaScript string operations the scripts rely on: `trim()`, `replace(/\D/g, "")`, `length` in UTF-16 code units, and the `\s` class |
| `phone_mask.dfy` | `PhoneMask` | `eventCalllback`: a reference function `Fill`, the loop `ApplyMask` proved equal to it, the listener `OnEvent`, and the input element `PhoneInput` |
| `field_rules.dfy` | `FieldRules` | the name, email, message and phone rules and their messages; the email regex and an equivalent explicit shape |
| `field_errors.dfy` | `FieldErrors` | form fields and their parent's children; `showFieldError`, `clearFieldError` |
| `served_script.dfy` | `ServedScript` | `validateField` of `static/js/script.js` |
| `app_script.dfy` | `AppScript` | `validateField` of `app/static/js/script.js` |
| `theme.dfy` | `Theme` | `getPreferredTheme`, `setTheme`, `toggleTheme` and the two listeners, as a class over the attribute, the stored key, the icon and whether the listeners are registered, specified by an event-step function |
| `particles.dfy` | `Particles` | the effective `createParticles`, `createResponsiveParticles`, the resize callback body, `createInteractiveParticles` and its mousemove handler, the page-ready listener |

How the scripts' JavaScript semantics are represented:

- **Random numbers.** `Math.random()` is an injected sequence of reals. Particle bounds are proved for draws in [0, 1).
- **Local storage and the colour-scheme query.** `localStorage` and `matchMedia` are fields and parameters.
- **Style values.** Style strings are numeric record fields.
- **Integer counts.** Particle counts are integers.
- **Mask line terminators.** The regex `.` in the mask does not match line terminators, so a line terminator in a pattern is copied through unchanged.
- **Lengths.** `length` counts UTF-16 code units.
- **`%` operator.** JavaScript's `%` is the remainder of truncating division.

Behaviour of the code that the model follows as written:

- **Digit count equal to slot count.** When the value's digit count equals the pattern's slot count, the mask drops the literals that follow the last slot: `"(123)"` under `"(___)"` gives `"(123"`. For a pattern ending in a literal, the full pattern length is therefore reached only with more digits than slots; a pattern ending in a slot is filled to its full length by as many digits as slots.
- **Pattern ending in a literal.** The mask is then not stable: under `"(___)"`, `"(1234)"` becomes `"(123)"`, and the next `input` event turns that into `"(123"`. Stability is proved only for patterns ending in a slot.
- **Blur on a pattern without slots.** `matrix.match(...)` is then `null`, so reading `.length` throws a TypeError and the value is left as it was.
- **Inherited density names.** `densityMap[density] || 50` also finds the names every object inherits from `Object.prototype`, such as `toString`. The result is then a function, or `Object.prototype` for `__proto__`: truthy but not a number, so no particle is built.
- **Inverted ranges.** An inverted size or opacity range is not clamped. Values then fall in (max, min].
- **Resize rebuild.** The rebuild after a resize uses the default ranges, whatever ranges the field was built with.
- **Zero-sized container.** With zero width or height, the pointer position is not finite, so every particle returns to rest.
- **Phone field in the application copy.** Validating a non-empty phone reads the undeclared `el`. That throws a ReferenceError before the field or the page is changed.

## Model

| member | source | states |
|---|---|---|
| JsText.Trim | static/js/script.js:158 | the result is a contiguous piece of the input with only whitespace removed on either side, and it neither starts nor ends with whitespace |
| JsText.Digits | app/static/js/script.js:123-124 | `replace(/\D/g, "")` keeps only ASCII digits |
| JsText.KeepRanks | app/static/js/script.js:123-124 | every digit of the input is kept, in order: the digit at position k is the result's character numbered by the digits before k |
| JsText.Utf16Len | static/js/script.js:164 | `length` is the number of characters plus one for each character outside the Basic Multilingual Plane, so between the character count and twice that |
| PhoneMask.SlotCount | app/static/js/script.js:126 | the number of slots (characters that are `_` or a digit) in a pattern is at most its length |
| PhoneMask.Matrix | app/static/js/script.js:121 | the pattern in use is never empty: `data-phone-pattern` when present and non-empty, otherwise the default |
| PhoneMask.Pour | app/static/js/script.js:131-134 | the digits poured into the pattern (the pattern's own digits when the value has no more) never give a value longer than the pattern |
| PhoneMask.OnEvent | app/static/js/script.js:116-135 | the listener reads `.length` of a null match iff the event is a blur, clearing is enabled and the pattern has no slot; a masked value is never longer than the pattern |
| PhoneMask.Fill | app/static/js/script.js:132-134 | the masked value is never longer than the pattern |
| PhoneMask.ApplyMask | app/static/js/script.js:132-134 | the `replace` pass with its counter `i` yields exactly the reference fill of the pattern with the digits |
| PhoneMask.PhoneInput.Handle | app/static/js/script.js:116-135 | the field's value becomes `''`, the masked value, or stays unchanged when the slot count is read from a null match, as the listener decides |
| PhoneMask.FillExhausted | app/static/js/script.js:133 | for a pattern without line breaks, once the digits are used up no further pattern character is emitted |
| PhoneMask.FillAligned | app/static/js/script.js:132-134 | for a pattern without line breaks, output position k is the pattern's character at k, or on a slot the digit numbered by the slots before k |
| PhoneMask.FillLength | app/static/js/script.js:132-134 | for a pattern without line breaks, output stops after the whole pattern when there are more digits than slots, otherwise right after the slot holding the last digit, and is empty without digits |
| PhoneMask.FillDigits | app/static/js/script.js:123-133 | for a pattern without line breaks and a value of digits only, the digits of the output are the first min(digits, slots) digits poured in, in order |
| PhoneMask.FillSaturated | app/static/js/script.js:133 | for a pattern ending in a slot, digits beyond the slot count change nothing |
| PhoneMask.PatternDigitsAreSlots | app/static/js/script.js:123-126 | a pattern has at least as many slots as fixed digits |
| PhoneMask.DefaultWhenAbsentOrEmpty | app/static/js/script.js:119-121 | the default pattern is used exactly when `data-phone-pattern` is absent or empty |
| PhoneMask.ClearingRule | app/static/js/script.js:125-130 | the value is cleared iff the event is a blur, `data-phone-clear` is not 'false' and the value has fewer digits than the pattern's slots; `input` and `focus` always mask |
| PhoneMask.PatternDigitsWin | app/static/js/script.js:131 | with no more digits than the pattern's fixed digits, the pattern's own digits are poured in |
| PhoneMask.PourStable | app/static/js/script.js:131-134 | for a pattern without line breaks that ends with a slot and has more slots than fixed digits, masking the digits of a masked value again gives the same value |
| PhoneMask.MaskStable | app/static/js/script.js:131-140 | under the same conditions on the pattern in use, a following `input` or `focus` event leaves a masked value unchanged |
| PhoneMask.DefaultPatternShape | app/static/js/script.js:120 | the default pattern has no line break, ends with a slot, has the fixed digit "7" and 11 slots |
| PhoneMask.EmptyFieldShowsPrefix | app/static/js/script.js:120-134 | an empty field becomes "+7" on `input` or `focus` with the default pattern |
| PhoneMask.DefaultBlurThreshold | app/static/js/script.js:125-130 | with the default pattern a blur clears the value iff clearing is enabled and it has fewer than 11 digits |
| PhoneMask.TrailingLiteralDropped | app/static/js/script.js:133 | digits that exactly fill the slots drop a trailing literal: "(123)" under "(___)" gives "(123" |
| PhoneMask.TrailingLiteralShownWhenOverfull | app/static/js/script.js:133 | one digit more than the slots shows the trailing literal: "(1234)" gives "(123)" |
| FieldRules.LengthRule | static/js/script.js:163-171 | no error iff min ≤ length ≤ max; the too-short message below min, the too-long message above max |
| FieldRules.NameRule | static/js/script.js:163-171 | no error iff the trimmed name has 2 to 100 UTF-16 code units; the too-short message below 2, the too-long message above 100 |
| FieldRules.MessageRule | static/js/script.js:191-199 | no error iff the trimmed message has 10 to 1000 UTF-16 code units; the too-short message below 10, the too-long message above 1000 |
| FieldRules.EmailRegexMatches | static/js/script.js:174 | a value the regex accepts has at least 5 characters, does not start with whitespace and has an '@' after its first character and before its last three |
| FieldRules.EmailRegexIff | static/js/script.js:173-179 | the regex matches iff the value has no whitespace, exactly one '@' with a non-empty part before it, and a '.' in the domain that is neither its first nor its last character |
| FieldRules.EmailRule | static/js/script.js:173-179 | no error iff the value has that shape |
| FieldRules.PhoneRule | static/js/script.js:181-189 | no error iff the value is empty or has at least 10 characters that are digits or '+' |
| FieldErrors.FirstError | static/js/script.js:233 | `querySelector('.field-error')` finds the first error element, and nothing iff there is none |
| FieldErrors.WithoutFirstError | static/js/script.js:233-236 | without an error element the children are unchanged; otherwise exactly the first error element is removed and the others keep their order |
| FieldErrors.WithoutFirstErrorCounts | static/js/script.js:233-236 | clearing removes at most one error element and keeps every other child in order |
| FieldErrors.ShowLeavesOneError | static/js/script.js:212-227 | with at most one error element before, exactly one is left afterwards and it carries the message |
| FieldErrors.ClearFieldError | static/js/script.js:230-237 | the border is reset and the first error element, if any, is removed |
| FieldErrors.ShowFieldError | static/js/script.js:212-227 | the border turns #ff6b6b and one error element with the message is appended after clearing |
| ServedScript.Verdict | static/js/script.js:157-200 | per field: name valid iff its trimmed length is in [2, 100]; message iff in [10, 1000]; email iff it has the email shape; phone iff empty or at least 10 digits or '+'; any other field valid |
| ServedScript.ValidateField | static/js/script.js:157-209 | returns false exactly when the error is shown, otherwise the error is cleared; the value is untouched |
| AppScript.Verdict | app/static/js/script.js:184-244 | the call throws iff the field is `phone` with a non-empty trimmed value; name, email and message rules as in the served copy; an empty phone and any other field are valid |
| AppScript.ValidateField | app/static/js/script.js:184-253 | on a throw nothing changes; otherwise it returns false exactly when the error is shown |
| AppScript.CopiesAgreeExceptPhone | app/static/js/script.js:189-243 | both copies give the same verdict on every field except a non-empty phone |
| Theme.PreferredTheme | app/static/js/script.js:306-312 | the stored theme when it is non-empty, otherwise 'dark' iff the system prefers dark |
| Theme.ToggledTheme | app/static/js/script.js:331-335 | the toggle goes to 'light' iff the attribute is missing, empty or 'dark', and to 'dark' otherwise |
| Theme.WithTheme | app/static/js/script.js:315-328 | the attribute and the stored key both become the theme; the icon is the moon iff the theme is 'light' |
| Theme.Step | app/static/js/script.js:331-350 | before page load a click or a colour-scheme change does nothing; page load registers the listeners for good; a colour-scheme change with a stored theme changes nothing; page load, a click after it, and a colour-scheme change after it with nothing stored each store a non-empty theme equal to the attribute, with the moon icon iff it is 'light'; a click after page load always changes the attribute; a stored theme stays stored |
| Theme.EarlyEventsIgnored | app/static/js/script.js:339-350 | before DOMContentLoaded any run of clicks and colour-scheme changes leaves the view unchanged |
| Theme.ClickBeforeLoadIgnored | app/static/js/script.js:339-343 | a click before page load is lost: with nothing stored and a dark system scheme the page ends on 'dark' |
| Theme.SystemChangeIgnoredWhenStored | app/static/js/script.js:346-350 | a colour-scheme change does nothing while a theme is stored |
| Theme.StoredStaysSet | app/static/js/script.js:339-350 | once a theme is stored it stays non-empty through any events, so colour-scheme changes never alter the theme again; registered listeners stay registered |
| Theme.AfterPageLoad | app/static/js/script.js:339-350 | after page load, whatever events follow, a theme is stored, the listeners are registered and a colour-scheme change does nothing |
| Theme.ReadyStores | app/static/js/script.js:339-341 | page load stores a non-empty theme equal to the attribute |
| Theme.ToggleTwice | app/static/js/script.js:331-343 | from 'light' or 'dark', two clicks restore attribute, stored key and icon |
| Theme.ThemePage.constructor | app/static/js/script.js:300-303 | the button starts with the moon class and no title, and no listener is registered yet |
| Theme.ThemePage.SetTheme | app/static/js/script.js:315-328 | the page shows and stores the theme as `WithTheme` says |
| Theme.ThemePage.ToggleTheme | app/static/js/script.js:331-335 | the page shows and stores the toggled theme |
| Theme.ThemePage.OnClick | app/static/js/script.js:331-343 | a click toggles the theme only once the click listener is registered, as the click step says |
| Theme.ThemePage.Init | app/static/js/script.js:339-350 | the page applies the preferred theme and registers the click and colour-scheme listeners |
| Theme.ThemePage.OnSystemChange | app/static/js/script.js:346-350 | the page follows the system scheme only once its listener is registered and while no theme is stored |
| Particles.ComplementHue | app/static/js/particles.js:88-89 | for a hue in [0, 360) the second hue is in [0, 360) and is the first plus 120 or minus 240 |
| Particles.MakeParticle | app/static/js/particles.js:76-105 | the second hue is the complement of the first, the blur is a tenth of the size, the radius is 30% iff the eighth draw exceeds 0.7, and a new particle rests with no transition |
| Particles.Batch | app/static/js/particles.js:75-108 | a build of n particles has exactly n particles |
| Particles.BatchAt | app/static/js/particles.js:75-108 | a build of n particles has n particles, the k-th made from draws 9k to 9k+8 |
| Particles.ScaleWithin | app/static/js/particles.js:80-81 | a scaled draw lies in [min, max), equals min for an empty range, and lies in (max, min] for an inverted one |
| Particles.MakeParticleBounds | app/static/js/particles.js:80-104 | size and opacity within their ranges, left and top in [0, 100), delay in [0, 5), duration in [4, 8), hues in [0, 360) 120 apart, radius 30% iff the draw exceeds 0.7 else 50%, blur a tenth of the size, rotation in [0, 360) |
| Particles.BatchBounds | app/static/js/particles.js:75-108 | every particle of a build satisfies those bounds |
| Particles.DensityLookup | app/static/js/particles.js:47-61 | low 20, medium (also the default) 50, high 100, very-high 200; an inherited `Object.prototype` name gives a non-number; any other name 50 |
| Particles.LoopCount | app/static/js/particles.js:61-75 | the loop runs the looked-up count of times, and not at all when the lookup gives an inherited member |
| Particles.CreateParticles | app/static/js/particles.js:66-111 | a missing container is left alone; otherwise the container holds exactly the new batch, nothing from before |
| Particles.CreateResponsiveParticles | app/static/js/particles.js:47-63 | builds as many particles as the density gives, with the given or default ranges, and registers no mousemove listener |
| Particles.OnResizeSettled | app/static/js/particles.js:120-128 | rebuilds only an existing non-empty container, with the same count and the default ranges, and registers no mousemove listener |
| Particles.CreateInteractiveParticles | app/static/js/particles.js:134-138 | throws iff the container is missing; otherwise builds with default ranges and adds one mousemove listener |
| Particles.OnPageReady | app/static/js/particles.js:170-180 | the page starts with 100 interactive particles in 'particles', or throws when there is no such element |
| Particles.PointerPercent | app/static/js/particles.js:139-141 | the position is not finite iff the container has zero width or height; otherwise it is the percentage that maps back to the cursor's coordinates |
| Particles.Near | app/static/js/particles.js:152-154 | a particle near the pointer is within 20 of it on each axis, and a non-finite pointer is near nothing |
| Particles.Repel | app/static/js/particles.js:146-165 | a particle is pushed away with a 0.3 s transition iff its squared distance from the pointer is below 400, else reset with 0.5 s; no other field changes |
| Particles.RepelAll | app/static/js/particles.js:146-165 | every particle is handled, in place |
| Particles.RepelIdempotent | app/static/js/particles.js:146-165 | the same event handled twice gives the same state as once |
| Particles.NonFiniteResetsAll | app/static/js/particles.js:139-141 | with a zero-sized container every particle is reset |
| Particles.OnMouseMove | app/static/js/particles.js:138-166 | the loop leaves the children exactly as `RepelAll` says and touches nothing else |

## Left out

- The contact-form submit handler in both scripts is left out: it is `fetch`, `await` and JSON parsing, which are network and async code.
- Smooth scrolling, the IntersectionObserver reveal, `showNotification` with its timers, the keyframe `<style>` injection and the header scroll listener are left out: they are browser effects with no decision logic.
- The blur and input listeners that call `validateField` and `clearFieldError` are left out: they are plain wiring, and both targets are modelled.
- The resize debounce itself (`setTimeout`/`clearTimeout`) is left out: it is timer semantics. Only the settled callback body is modelled.
- Particles.Repel: records the push direction (dx, dy), not its 30 px size. The `atan2`/`cos`/`sin` computation is trigonometry on floating point.
- Particles.MakeParticleBounds: bounds hold over the reals. IEEE rounding of `r * (max - min) + min` is not modelled.
- CSS strings (`${size}px`, `hsl(...)`, the error element's `cssText`) are left out: values are kept as numbers and records. The `parseFloat` round trip of `style.left` is taken to return the stored number.
- The gradient's saturation and lightness, and the particle class name, are left out: they are constants with no behaviour.
- Particles.CreateParticles: the count is an integer, not an arbitrary JavaScript value. The count default of 50 is left out, because every caller in the file passes a count. The range defaults are applied by the callers: the resize rebuild (particles.js line 127) and `createInteractiveParticles` (line 135) omit the ranges, and the model passes `DefaultSizeRange` and `DefaultOpacityRange` for them.
- The container is assumed to hold only particles, and `getElementById` is a map from ids to containers.
- The first `createParticles` declaration (particles.js lines 2-44) is not modelled: the later declaration of the same name replaces it.
- `window.Particles` is not modelled: it only exposes the functions for the developer console.
- main.py and admin_view.py are not part of this model: they are a static mount and a database printout.
- Theme.Step: DOMContentLoaded fires once per page. A second `Ready` event in a run is treated like the first, and the duplicate listeners a second run of the handler would add are not modelled.
- FieldErrors.ClearFieldError: `querySelector` is modelled over the parent's direct children only, not deeper descendants.
- AppScript.ValidateField: treats the read of `el` as always throwing. A page element with id `el` would make it a global, and that case is not modelled.
- PhoneMask.PhoneInput.Handle: listener registration on each `[data-phone-pattern]` element is not modelled. Each registration only routes events to this method.
