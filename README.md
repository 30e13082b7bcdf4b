# User account model

A Dafny model of the user account entity of the workshop application
(`src/examples/module8/rust_app/src/core/core.rs`). An account (`User`) is
either `Standard` or `Premium`. Both tiers wrap the same `UserDetails` record:
email address, password, optional age and name. A premium account also carries
an `is_premium` flag.

- `wrappers.dfy`: `Option` and `Result`, the Rust sum types the account returns.
- `user.dfy` (module `UserCore`): the records and the operations of `impl User`.
  Registration, the projections, promotion and the password check are functions
  over the datatype. `update_name` and `update_age` take `&mut self` and
  overwrite a field in place. They are methods of the class `UserCell`, which
  holds one `User` value. The functions `WithName` and `WithAge` give the value
  those methods leave behind.
- `lifecycle.dfy` (module `Lifecycle`): any sequence of renames, age updates and
  promotions applied to an account. Lemmas proved by induction state what such a
  sequence keeps fixed (email address, password, password check), that the tier
  only moves from Standard to Premium, and when the age can be absent.

The age is an `Option<Int32>`, where `Int32` is the signed 32-bit range as a
newtype. No operation does arithmetic on it, so there is no overflow to model.
`verify_password` returns `Result<(), ()>`; the model keeps that unit error
rather than a named mismatch error.

## Model

| member | source | states |
|---|---|---|
| `UserCore.New` | src/examples/module8/rust_app/src/core/core.rs:45-54 | registration yields a Standard account holding the given email, name and password, with no age |
| `UserCore.DetailsOfEitherTier` | src/examples/module8/rust_app/src/core/core.rs:55-63 | `details` returns the wrapped record for a Standard and for a Premium account alike |
| `UserCore.EmailAddress` | src/examples/module8/rust_app/src/core/core.rs:64-72 | the email address is the details' email address, whatever the tier |
| `UserCore.NewEmailAddress` | src/examples/module8/rust_app/src/core/core.rs:45-72 | a freshly registered account answers with the email it was registered under |
| `UserCore.GetAge` | src/examples/module8/rust_app/src/core/core.rs:118-128 | the age read is the details' age, whatever the tier |
| `UserCore.WithName` | src/examples/module8/rust_app/src/core/core.rs:75-87 | a rename changes the name only: every other detail, the tier and the premium flag are kept |
| `UserCore.WithAge` | src/examples/module8/rust_app/src/core/core.rs:89-101 | setting the age makes it `Some(a)` for any 32-bit `a`, negative included, and changes nothing else |
| `UserCore.UserCell.constructor` | src/examples/module8/rust_app/src/core/core.rs:45-54 | a new binding holds the freshly registered account |
| `UserCore.UserCell.UpdateName` | src/examples/module8/rust_app/src/core/core.rs:75-87 | after the in-place rename the name is the new one (empty included); email, password, age and tier are unchanged |
| `UserCore.UserCell.UpdateAge` | src/examples/module8/rust_app/src/core/core.rs:89-101 | after the in-place update the age is `Some(a)`; email, password, name and tier are unchanged |
| `UserCore.UpdateToPremium` | src/examples/module8/rust_app/src/core/core.rs:152-160 | the result is Premium with the same details; a Standard account gets the flag set; a Premium account comes back unchanged, flag included |
| `UserCore.UpdateToPremiumIdempotent` | src/examples/module8/rust_app/src/core/core.rs:152-160 | promoting twice equals promoting once |
| `UserCore.VerifyPassword` | src/examples/module8/rust_app/src/core/core.rs:162-175 | the check is `Ok` exactly when the candidate equals the stored password, `Err` exactly when it differs |
| `UserCore.VerifyPasswordIsExact` | src/examples/module8/rust_app/src/core/core.rs:171-174 | the stored password is accepted; it is refused with a character appended or with its first character changed |
| `Lifecycle.RunKeepsCredentials` | src/examples/module8/rust_app/src/core/core.rs:75-101 | no sequence of renames, age updates and promotions changes the email address or the password |
| `Lifecycle.RunKeepsPasswordCheck` | src/examples/module8/rust_app/src/core/core.rs:162-175 | the password check answers the same before and after any such sequence |
| `Lifecycle.RunTier` | src/examples/module8/rust_app/src/core/core.rs:152-160 | after a sequence the account is Premium exactly when it started Premium or the sequence promotes it; no operation demotes |
| `Lifecycle.RunKeepsPremiumFlag` | src/examples/module8/rust_app/src/core/core.rs:152-160 | an account that started Standard, or Premium with its flag set, never ends Premium with the flag cleared |
| `Lifecycle.RunAgeAbsent` | src/examples/module8/rust_app/src/core/core.rs:89-101 | the age is absent at the end exactly when it was absent at the start and no operation set it |
| `Lifecycle.RunWithoutRenameKeepsName` | src/examples/module8/rust_app/src/core/core.rs:75-87 | a sequence without a rename leaves the name as it was |
| `Lifecycle.RegisterThenPromote` | src/examples/module8/rust_app/src/core/core.rs:45-175 | registering Ann at a@x.com with password p1 and promoting gives a flagged Premium account with the same email and name, no age, that accepts p1 and refuses any other password |

## Left out

- `DataAccess` (core.rs:3-6): a storage interface that only declares `with_email_address` and `store`. No implementation exists in the source, so lookup and upsert behaviour is not modelled, and neither is its thread-sharing bound.
- `say_hello` and `whats_my_age` (core.rs:104-115, 131-147): their only effect is console output.
- `RegisterUserRequest`, `LoginRequest` and the serialization attributes (core.rs:8-30): wire shapes with no logic; serialization belongs to an external library.
- Ownership: `update_to_premium` consumes its receiver. The model returns a new value and does not capture that the old binding becomes unusable.
- Aliasing of the `&UserDetails` reference that `details` returns is not modelled; `Details` returns the record as a value.
