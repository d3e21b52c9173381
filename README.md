# Point Coffee page logic in Dafny

A model of the non-visual logic in `index.js`, the script of a single-page coffee-shop
site. The rest of the script is DOM and event wiring. The model covers:

- **The shopping cart** (`initCart`). This is an ordered list of `{name, price, quantity}`
  entries plus `cartTotal`. Add-to-cart merges entries by name. `removeFromCart` splices
  out one position. `updateCart` recomputes the total from zero. Checkout refuses an empty
  cart; otherwise it builds the order message. The cart is the class
  `Cart.ShoppingCart`, whose invariant `Valid()` says three things: names are unique,
  every quantity is at least 1, and the total equals the sum of price × quantity. Each
  method's new state is given by a specification function (`Added`, `Removed`, `Sum`).
  The lemmas about those functions carry the promised properties.
- **The reservation validator** (`validateReservationForm`). Seven independent rules are
  checked in a fixed order and every violation is collected. The form is accepted
  exactly when nothing was collected. JavaScript's `trim` and `\s` whitespace, the phone
  pattern `^(\+62|62|0)[0-9]{9,13}$` and the `split(':').map(Number)` time reading are
  all written out over character sequences.
- **Small stateful helpers**:
  - the ten-point cursor trail (`Trail.MouseTrail`);
  - the testimonial highlight counter (`Testimonials.Rotation`);
  - the gallery tab filter (`Gallery`);
  - the light/dark theme toggle and its stored preference (`Theme`).

Modules: `Wrappers` (Option/Result), `Decimal` (digit strings), `Text` (whitespace, trim,
strip), `Cart`, `Reservation`, `Trail`, `Testimonials`, `Gallery`, `Theme`.

Behaviour of `index.js` that the model keeps on purpose:

- `!data.guests` rejects only the empty string, so a guest count of `"0"` passes
  (index.js:382, `Reservation.ZeroGuestsPass`).
- The order message starts with `Order Details:` and puts `Rp ` before every amount
  (index.js:266-270).
- `removeFromCart` splices out the whole entry whatever its quantity (index.js:253).
- `split(':').map(Number)` gives NaN for a field that is not a number. Every comparison
  with NaN is false, so such a time passes the business-hours rule (index.js:392-397).
- Adding a name that is already in the cart only raises its quantity. The entry keeps the
  price it was first added with (index.js:194-196, `Cart.AddExisting`).

## Model

| member | source | states |
|---|---|---|
| `Cart.Added` | index.js:194-203 | The entries after one add-to-cart click: the entry with that name gets one more, or `{name, price, 1}` is appended |
| `Cart.Removed` | index.js:253 | The entries after `cart.splice(index, 1)`: the entry at index taken out, or all unchanged when index is past the end |
| `Cart.Sum` | index.js:221-225 | The sum of price × quantity over the entries, accumulated front to back from 0 |
| `Cart.LineText` | index.js:267 | One order line: name, ` x`, the quantity in digits, ` = Rp ` and the formatted amount |
| `Cart.JoinLines` | index.js:266-268 | The order lines joined by single newlines |
| `Cart.Message` | index.js:270 | The whole order message: `Order Details:` line, the joined lines, a blank line and `Total: Rp ` with the formatted total |
| `Cart.IndexOf` | index.js:194 | The result is the first position holding the name; it is None exactly when no entry has that name |
| `Cart.Find` | index.js:194 | The loop of `cart.find` returns exactly the position `IndexOf` specifies |
| `Cart.IndexOfUnique` | index.js:194 | In a cart with unique names, the entry found for a name is the only entry bearing it |
| `Cart.AddExisting` | index.js:194-196 | Re-adding a present name raises that entry's quantity by exactly 1 and keeps its price. Length, order and every other entry are unchanged, and the total rises by that entry's price |
| `Cart.AddNew` | index.js:197-203 | Adding an absent name appends `{name, price, 1}` after the untouched existing entries, and the total rises by the price |
| `Cart.AddedWellFormed` | index.js:194-203 | Add-to-cart preserves unique names and quantities of at least 1 |
| `Cart.RemoveAt` | index.js:252-253 | Splicing a valid position removes exactly that entry (multiset and positions) and keeps the others in order; the total drops by its line total |
| `Cart.RemovedWellFormed` | index.js:252-253 | Removing preserves unique names and quantities of at least 1 |
| `Cart.SumAppend` | index.js:221-225 | The accumulated total of two lists placed one after the other is the sum of their totals |
| `Cart.SumReplace` | index.js:221-225 | Replacing one entry changes the total by the difference of the two line totals |
| `Cart.LatteTwice` | index.js:194-225 | The empty cart totals 0. Adding "Latte" twice gives one entry of quantity 2. Two lattes plus one espresso total 68000. Removing the only entry empties the cart |
| `Cart.AmountSumOfLines` | index.js:266-270 | The amounts printed on the order lines add up to the cart total printed at the bottom |
| `Cart.JoinLinesAppend` | index.js:266-268 | Each further entry adds its line after the earlier ones, separated by one newline, so the message keeps cart order |
| `Cart.LatteMessage` | index.js:266-270 | The lines and total computed from a cart holding two lattes render as `Order Details:\nLatte x2 = Rp …\n\nTotal: Rp …` |
| `Cart.ShoppingCart.constructor` | index.js:178-179 | A new cart is empty with total 0 and satisfies the invariant |
| `Cart.ShoppingCart.UpdateCart` | index.js:219-225 | Leaves the entries alone and sets the total to the sum of price × quantity, whatever it was before |
| `Cart.ShoppingCart.AddToCart` | index.js:186-205 | Keeps the invariant; the new entries are `Added(old entries, name, price)` |
| `Cart.ShoppingCart.RemoveFromCart` | index.js:252-255 | Keeps the invariant; the new entries are `Removed(old entries, index)`; an index past the end changes nothing |
| `Cart.ShoppingCart.Checkout` | index.js:261-270 | Fails exactly on an empty cart. Otherwise it gives one line per entry, in cart order, carrying name, quantity and price × quantity, and a grand total equal to the sum of the lines |
| `Decimal.ToDecimal` | index.js:267 | The quantity written into the message is a non-empty digit string without leading zeros |
| `Decimal.ValueOfToDecimal` | index.js:267 | Reading back the written quantity gives the number again |
| `Text.Trim` | index.js:378-379 | `s.trim()`: the leading whitespace and then the trailing whitespace removed |
| `Text.TrimStart` | index.js:378-379 | The result is a suffix of the input, everything dropped is whitespace, and it does not start with whitespace |
| `Text.TrimEnd` | index.js:378-379 | The result is a prefix of the input, everything dropped is whitespace, and it does not end with whitespace |
| `Text.TrimEmpty` | index.js:378-379 | `!s.trim()` holds exactly when the string is whitespace only |
| `Text.TrimShape` | index.js:378-379 | The trimmed string is a contiguous piece of the input with no whitespace at either end |
| `Text.StripSpaces` | index.js:386 | The stripped phone contains no whitespace and is no longer than the input |
| `Text.StripSpacesAppend` | index.js:386 | Stripping works piece by piece, so the non-space characters keep their order |
| `Text.StripSpacesNoSpace` | index.js:386 | A string without whitespace is unchanged by stripping |
| `Text.StripSpacesEmpty` | index.js:386 | Stripping leaves nothing exactly when the string is whitespace only |
| `Reservation.PhonePattern` | index.js:385 | The regular expression `^(\+62\|62\|0)[0-9]{9,13}$` matched against a whole string |
| `Reservation.PhoneAccepted` | index.js:386 | The pattern applied to the phone with all whitespace removed |
| `Reservation.ClockMinutes` | index.js:392-393 | `hours * 60 + minutes` from the first two `:`-separated fields, or None where `Number` gives NaN |
| `Reservation.OutsideHours` | index.js:397 | The time reads as a number of minutes below 420 or above 1320; an unreadable time is never outside |
| `Reservation.PhonePatternAccepts` | index.js:385 | Any of `+62`, `62`, `0` followed by 9 to 13 decimal digits matches the pattern |
| `Reservation.PhonePatternParts` | index.js:385 | Anything the pattern matches is such a prefix followed by 9 to 13 digits, 10 to 16 characters in all |
| `Reservation.PhoneIgnoresSpaces` | index.js:386 | Inserting a whitespace character anywhere in the phone does not change whether it is accepted |
| `Reservation.PhoneAcceptedDigits` | index.js:386 | For a digits-only phone, acceptance is the pattern applied to the phone itself |
| `Reservation.UpTo` | index.js:392 | The first field of `split(':')` is the longest prefix free of `:`; it is followed by `:` unless it is the whole string |
| `Reservation.TwoDigits` | index.js:392 | A two-digit field reads back as its number |
| `Reservation.ClockRoundTrip` | index.js:392-393 | A well-formed `HH:MM` reads as hours × 60 + minutes |
| `Reservation.BusinessHours` | index.js:393-399 | For a time of day, the hours rule passes exactly from 07:00 through 22:00 inclusive (420 ≤ minutes ≤ 1320) |
| `Reservation.Violates` | index.js:378-399 | The condition of each rule's `if`, on the form fields |
| `Reservation.Collect` | index.js:376-399 | Runs the given checks in turn and pushes each violated one |
| `Reservation.Errors` | index.js:376-399 | The `errors` array: all seven checks collected in checking order |
| `Reservation.ValidateReservationForm` | index.js:375-408 | True exactly when the errors array is empty |
| `Reservation.ErrorText` | index.js:378-398 | The message pushed for each rule, word for word; none is empty |
| `Reservation.JoinTexts` | index.js:403 | `errors.join('\n')`: empty exactly for no errors, and it starts with the first error's text |
| `Reservation.Notification` | index.js:402-404 | The joined texts when any error was collected, otherwise nothing |
| `Reservation.NotificationShown` | index.js:402-407 | A notification appears exactly when the form is rejected, and it is never empty. When one rule alone fails it reads exactly that rule's text |
| `Reservation.CollectMembers` | index.js:376-399 | Running the checks in turn collects exactly the violated ones |
| `Reservation.CollectAscending` | index.js:376-399 | Collected errors keep the checking order, so none is repeated |
| `Reservation.ErrorsAreViolations` | index.js:376-399 | The error list holds every violated rule, once each, in checking order, and nothing else |
| `Reservation.ErrorMeanings` | index.js:378-399 | Gives each error's condition in terms of the fields: blank name, blank phone, empty date, time or guests, a present phone that fails the pattern after stripping, a present and readable time outside 420..1320 |
| `Reservation.AcceptedIffNoViolation` | index.js:402-407 | The validator returns true exactly when no rule is violated |
| `Reservation.PhoneRequiredAlone` | index.js:379-387 | An empty phone yields "Phone is required" but not the format error; a whitespace-only phone yields both |
| `Reservation.ZeroGuestsPass` | index.js:382 | A guest count of "0" passes the presence rule |
| `Reservation.AscendingDetermined` | index.js:376-399 | An error list in checking order is determined by which errors it holds |
| `Reservation.ErrorsAre` | index.js:376-399 | The error list equals any ordered list of exactly the failing rules |
| `Reservation.OnlyRule` | index.js:376-399 | When exactly one rule fails, the error list is that one error |
| `Reservation.EmptyFormErrors` | index.js:378-382 | A form whose name, phone, date, time and guests are all empty collects the five presence errors, in order, and neither format error |
| `Reservation.SampleAccepted` | index.js:375-408 | A complete payload with phone 08123456789 and time 10:00 is accepted |
| `Reservation.SampleName` | index.js:378 | "Budi" is not blank after trimming |
| `Reservation.SamplePhone` | index.js:379-386 | "08123456789" is present and matches the phone pattern |
| `Reservation.SampleTime` | index.js:391-399 | "10:00" is within business hours |
| `Reservation.ShortPhone` | index.js:385-386 | "12345" is not blank yet fails the phone pattern |
| `Reservation.LateTime` | index.js:391-399 | "23:00" fails the business-hours rule |
| `Reservation.OneFieldAtATime` | index.js:376-399 | The rules are independent. Spoiling one field of an accepted payload collects exactly one error, for that field: blank name, bad phone or out-of-hours time |
| `Reservation.SingleViolations` | index.js:376-399 | An empty name, a 23:00 time or the phone "12345", each alone, give exactly one error |
| `Trail.Pushed` | index.js:564-572 | The buffer after one move: the point appended, then the oldest dropped if the length passed 10 |
| `Trail.PushedWithinLimit` | index.js:563-572 | A buffer of at most 10 points stays within 10 after a move and ends with the new point. Below the limit it grows by one; at the limit the oldest point is dropped |
| `Trail.OverfullStaysOverfull` | index.js:570-572 | A single shift does not shrink an overfull buffer, so the limit holds only as an invariant |
| `Trail.ReplayKeepsLatest` | index.js:560-572 | After any run of moves from the empty buffer, it holds exactly the last min(n, 10) points, oldest first |
| `Trail.MouseTrail.constructor` | index.js:560-561 | The trail starts empty |
| `Trail.MouseTrail.Move` | index.js:563-572 | Keeps at most 10 points; the new buffer is the old one pushed with the point, with the oldest shifted out if it grew past 10 |
| `Testimonials.AfterTicks` | index.js:486-488 | The index after k ticks of `(current + 1) % count` from 0 |
| `Testimonials.AfterTicksCycles` | index.js:484-488 | After k ticks the highlight is on k mod count, always a valid index |
| `Testimonials.Rotation.constructor` | index.js:482-484 | Rotation starts at testimonial 0, only when there is at least one |
| `Testimonials.Rotation.Tick` | index.js:488 | The index becomes (index + 1) mod count and stays in [0, count) |
| `Gallery.Shows` | index.js:155 | An item is shown when the tab is "all" or equals its category |
| `Gallery.ApplyFilter` | index.js:152-160 | One display flag per item, in page order; an item is shown exactly when the tab is "all" or matches its category |
| `Gallery.TabsPartition` | index.js:155 | "all" shows every item, any other tab shows exactly its own category, and every item shows under its own tab |
| `Theme.InitialTheme` | index.js:757 | The stored theme, or "light" when nothing (or an empty string) is stored |
| `Theme.Toggle` | index.js:762 | "light" after "dark", and "dark" after anything else |
| `Theme.ToggleFlips` | index.js:762 | A toggle always gives "light" or "dark". It flips between the two and undoes itself; any other stored value toggles to "dark" |
| `Theme.ToggledParity` | index.js:760-765 | Starting from light, an odd number of clicks gives dark and an even number gives light |
| `Theme.StoredThemeRestored` | index.js:757-765 | The theme the toggle stores is the theme the next start-up shows; with nothing stored it starts light |

## Left out

- DOM rendering is not modelled: `innerHTML`, showing or hiding the cart summary, button
  animations, CSS classes, notifications and `alert`.
- The WhatsApp hand-off is not modelled: `window.open`, `encodeURIComponent` and the fixed
  phone number in the URL.
- `toLocaleString` currency grouping depends on the locale. It is a parameter
  `fmt: nat -> string` of the message functions.
- `parseInt` on the price attribute is not modelled, and neither is its NaN case. Prices
  are whole numbers.
- Cart.LineTotal, Cart.Sum, Decimal.ToDecimal: prices, quantities, line totals and
  `cartTotal` are JavaScript doubles. `price * quantity` and `cartTotal += itemTotal`
  are exact only below 2^53, and `${item.quantity}` switches to exponent notation from
  1e21. The model uses unbounded `nat` and always writes plain digits, so it matches the
  script only while every amount stays below 2^53.
- `splice` with a negative index is not modelled. Indices are natural numbers.
- Reservation.ToNumber: models `Number` only on strings of decimal digits (the empty
  string reads as 0). Strings with spaces, signs, decimal points, exponents or hex
  prefixes are read as NaN, although JavaScript reads some of them as numbers.
- Reservation.ReservationData: every field is a string. A missing field, which would make
  `trim` throw, is not modelled.
- Showing the validation notification is I/O and is left out; its text is modelled
  (`Reservation.Notification`). The reservation and contact messages sent after
  validation are also I/O and are left out.
- The date input's minimum and maximum come from the wall clock and are left out.
- Timing is left out: `setInterval`, `setTimeout`, `requestAnimationFrame`, `debounce`,
  `throttle` and the 500 ms age filter that `animateTrail` uses when drawing points.
- Testimonials.Rotation: which testimonial carries the `pulse` class is not modelled.
  Only the index is.
- Parallax, the progress bar, counter animation, floating beans, the search filter, the
  menu tabs and touch and keyboard handlers are decorative, floating-point or random, and
  are not part of this model.
- `localStorage` is modelled only as the `Option<string>` that `InitialTheme` reads.
