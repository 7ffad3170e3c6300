# ConfirmViaPassword, modelled in Dafny

This project models the decision core of Parity's `ConfirmViaPassword` signer
component. The component lets a user confirm a pending signing request by typing
the account password. `handleChange` stores what the user types in
`state.password`. `handleConfirm` makes one call into the signer:

- if the request came with already-signed data (`dataSigned`), it calls
  `confirmRequestRaw(request.id, dataSigned)`;
- otherwise it calls `confirmRequest(request.id, subset, password)`, where `subset`
  is lodash's `pick` of the transaction on a fixed list of keys.

The form also shows a password hint taken from the accounts store, and a confirm
button whose caption and disabled state come from the props.

Modules:

- `Js` (`js.dfy`): `Option` for `null`/`undefined`, a `Value` type for transaction
  fields, JavaScript truthiness of optional strings, and `||` on them.
- `Lodash` (`lodash.dfy`): `Pick`, generic over the value type, with a reference
  definition (`Restrict`) and lemmas about it.
- `SignerApi` (`signer.dfy`): the `SignerCall` datatype and a `Signer` class that
  records every call in an append-only log. Nothing is signed.
- `ConfirmViaPassword` (`confirm_via_password.dfy`): the props, the key list exactly
  as written, the pure dispatch function `ConfirmCall`, the hint and button
  derivations, and the component class. The class has the `password` field and
  the methods `HandleChange`, `HandleConfirm` and `Render`.

Other choices:

- The signer (`api` from the React context) is passed to the constructor.
- The props and the accounts store (`allAccountsInfo`) are passed to the methods
  that read them. React reads `this.props` at the moment of the call.
- The component never changes either one.

The transaction is the component's own `transaction` prop (line 58 of
`src/ConfirmViaPassword/ConfirmViaPassword.js`), not a field of `request`.

## Model

| member | source | states |
|---|---|---|
| `Js.Or` | src/ConfirmViaPassword/ConfirmViaPassword.js:124 | JavaScript's `a or b` returns `a` when `a` is truthy and `b` otherwise; the result is truthy iff one of the operands is |
| `Lodash.Pick` | src/ConfirmViaPassword/ConfirmViaPassword.js:66 | a key is in the result iff the object exists, has that key and the key is listed; each value in the result equals the object's value; a missing object gives no keys |
| `Lodash.PickIsRestriction` | src/ConfirmViaPassword/ConfirmViaPassword.js:66 | `pick` equals the independent definition: the object's map restricted to the set of listed keys |
| `Lodash.PickOfNothing` | src/ConfirmViaPassword/ConfirmViaPassword.js:64-66 | a `null`/`undefined` transaction gives the empty subset for every key list |
| `Lodash.PickIdempotent` | src/ConfirmViaPassword/ConfirmViaPassword.js:66 | picking the same keys a second time changes nothing |
| `Lodash.PickDependsOnKeySetOnly` | src/ConfirmViaPassword/ConfirmViaPassword.js:66 | two key lists with the same members give the same subset, whatever their order or repetition |
| `SignerApi.Signer.ConfirmRequestRaw` | src/ConfirmViaPassword/ConfirmViaPassword.js:62 | the raw confirmation is recorded as exactly one `Raw(id, data)` entry at the end of the log |
| `SignerApi.Signer.ConfirmRequest` | src/ConfirmViaPassword/ConfirmViaPassword.js:66 | the password confirmation is recorded as exactly one `Password(id, subset, password)` entry at the end of the log |
| `ConfirmViaPassword.ConfirmCall` | src/ConfirmViaPassword/ConfirmViaPassword.js:56-68 | the call always carries `request.id`; it takes the raw path iff `dataSigned` is truthy, so a missing or empty `dataSigned` takes the password path |
| `ConfirmViaPassword.RawPathIgnoresPassword` | src/ConfirmViaPassword/ConfirmViaPassword.js:61-62 | with truthy `dataSigned` the call is `Raw(request.id, dataSigned)` and is the same for every password |
| `ConfirmViaPassword.PasswordPathCall` | src/ConfirmViaPassword/ConfirmViaPassword.js:63-66 | with missing or empty `dataSigned` the call is `Password` with the password unchanged and the subset `pick(transaction, ['condition', 'gas', 'gasPrice,'])`; its entries are exactly the transaction's `condition`, `gas` and `gasPrice,` fields, with their values |
| `ConfirmViaPassword.SourceSubsetOmitsGasPrice` | src/ConfirmViaPassword/ConfirmViaPassword.js:66 | with the list as written, no subset ever contains `gasPrice` or an unlisted field such as `extra` |
| `ConfirmViaPassword.SourceSubsetDropsGasPrice` | src/ConfirmViaPassword/ConfirmViaPassword.js:66 | as written, `{gas: 21000, gasPrice: 5, condition: null, extra: "x"}` becomes `{condition: null, gas: 21000}` |
| `ConfirmViaPassword.IntendedSubsetIsExact` | src/ConfirmViaPassword/ConfirmViaPassword.js:66 | with `'gasPrice'` spelt correctly, the subset is exactly the transaction restricted to `condition`, `gas` and `gasPrice`; the same example keeps `gasPrice: 5` |
| `ConfirmViaPassword.RenderHint` | src/ConfirmViaPassword/ConfirmViaPassword.js:121-128 | a hint is shown iff the account exists, has `meta`, and its `passwordHint` is a non-empty string, and then it is that string; otherwise, including for an empty hint, nothing is shown |
| `ConfirmViaPassword.RenderButton` | src/ConfirmViaPassword/ConfirmViaPassword.js:80-90 | the button is disabled iff `isDisabled` or `request.isSending` holds, and shows the busy caption iff `request.isSending` |
| `ConfirmViaPassword.BusyButtonIsDisabled` | src/ConfirmViaPassword/ConfirmViaPassword.js:80-90 | a button showing "Confirming..." is always disabled |
| `ConfirmViaPassword.ConfirmViaPassword.constructor` | src/ConfirmViaPassword/ConfirmViaPassword.js:47-49 | a new component's password is the empty string |
| `ConfirmViaPassword.ConfirmViaPassword.HandleChange` | src/ConfirmViaPassword/ConfirmViaPassword.js:51-54 | the password becomes exactly the typed value, with no trimming or other change, and the signer is untouched |
| `ConfirmViaPassword.ConfirmViaPassword.HandleConfirm` | src/ConfirmViaPassword/ConfirmViaPassword.js:56-68 | exactly one call, `ConfirmCall(props, password)`, is appended to the signer log, and the password is unchanged |
| `ConfirmViaPassword.ConfirmViaPassword.Render` | src/ConfirmViaPassword/ConfirmViaPassword.js:70-116 | the password field shows the current password; the hint is `RenderHint`'s; the button follows the disabled and busy rules |
| `ConfirmViaPassword.TypeAndConfirmScenario` | src/ConfirmViaPassword/ConfirmViaPassword.js:51-68 | typing "pw", then confirming "R1" with no signed data and the example transaction, logs exactly `Password("R1", {condition: null, gas: 21000}, "pw")`; the field still shows "pw" |

## Findings

| source | as written | input that shows it | evidently intended | confidence | as-written member | corrected member |
|---|---|---|---|---|---|---|
| src/ConfirmViaPassword/ConfirmViaPassword.js:66 | the key list `['condition', 'gas', 'gasPrice,']` has a stray comma inside the last key | transaction `{gas: 21000, gasPrice: 5, condition: null, extra: "x"}` gives the subset `{condition: null, gas: 21000}`, without the gas price | `['condition', 'gas', 'gasPrice']`, so that a chosen gas price reaches the signer | high; not executed | `ConfirmViaPassword.SourceSubsetDropsGasPrice` | `ConfirmViaPassword.IntendedSubsetIsExact` |

The component class and `ConfirmCall` keep the list as written
(`SourceSubsetKeys`), so that their contracts describe what the code does. The
corrected list is `IntendedSubsetKeys`, and `IntendedSubsetIsExact` proves the
intended behaviour for it.

## Left out

- Rendering is not modelled: JSX, the `Form`/`Input`/`Button` layout, CSS classes and `IdentityIcon`. They only present data. `Render` keeps only the values they show.
- `react-intl` messages and the placeholder text are not modelled, because they are localisation resources. The two button captions are the constructors of `ButtonLabel`.
- The mobx `@inject`/`@observer` decorators and `contextTypes` are not modelled. They are dependency injection. The signer is passed to the constructor and the accounts store to `Render`.
- The real `confirmRequest` and `confirmRequestRaw` are not modelled, nor any network access or cryptography. Both are foreign calls, and each one only appends an entry to the `Signer` log.
- Promises and errors are not modelled. The component ignores the promise the signer returns, and it has no busy or error state of its own.
- `isFocused` is not modelled, because it only passes through to the input as a display hint.
- `Lodash.Pick` does not model lodash's deep paths (`a.b`, `a[0]`) or inherited properties. None of the keys used here contains `.` or `[`, and a transaction is treated as a plain record.
- JavaScript truthiness is modelled only for the values it is applied to. `dataSigned` and `passwordHint` are optional strings. `isDisabled` and `request.isSending` are booleans, with an omitted value read as `false`.
- Transaction field values are a small `Value` datatype. They are copied and never computed with, so JavaScript's number representation does not matter here.
