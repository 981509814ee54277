# Magento setup: the `StartUpdater` controller

This project models the request handling of the setup application's
`StartUpdater` controller, which starts a package update or uninstall job
for the separate updater application. On `updateAction` it:

1. checks the shape of the decoded request;
2. validates the job and its packages (`validatePayload`);
3. only when validation is silent:
   - writes the `.type.json` flag for the updater (`createTypeFlag`);
   - asks the updater model to create a cron task.

It answers `{success, message}`.

Modules:

- `PhpValues` (`php_values.dfy`): decoded JSON values as PHP sees them. It gives `isset` (key present and not `null`), key lookup and `foreach`.
- `Validation` (`validation.dfy`): what the validator reports, as a function of the payload, and its properties.
- `TypeFlags` (`type_flag.dfy`): the flag record, the menu-title selection, and `str_replace("\n", '<br />', …)`.
- `Dispatch` (`dispatch.dfy`): what the action answers and which task it creates, as functions of the payload, and their properties.
- `Controller` (`start_updater.dfy`): the controller as a class. The three collaborators are classes that only record what the controller does to them:
  - `VarDirectory` holds the last flag written;
  - `Navigation` holds the menu items;
  - `Updater` logs the tasks it is given and answers with a fixed error text.

  The methods `UpdateAction`, `ValidatePayload` and `CreateTypeFlag` follow the PHP step by step. Each is proved against the functions of `Validation`, `TypeFlags` and `Dispatch`.

Modelling choices:

- PHP's loose `==` between the job type and `'uninstall'` is modelled as equality of decoded values. `===` is modelled the same way.
- `empty($errorMessage)` is modelled as "the string is empty". PHP would also call `"0"` empty.
- `PHP_EOL` is taken to be `"\n"`.
- A missing key reads as `null`, as PHP does after its notice. This includes the unchecked read of `headerTitle`. So `isset` cannot tell a missing key from a `null` value.
- `foreach` over a value that is not an array visits nothing, as PHP does after its warning. Because of this, `ValidatePayload` is total.
- A menu item is its `type` value (`Null` when absent) and its title string.

## Model

| member | source | states |
|---|---|---|
| `PhpValues.FindSpec` | setup/src/Magento/Setup/Controller/StartUpdater.php:106-108 | A key read yields the value of the last field of that name, or `null` if no field has it. |
| `PhpValues.IssetOnlyPresentKeys` | setup/src/Magento/Setup/Controller/StartUpdater.php:108 | `isset` holds only for a key that is present in an object with a non-null value. |
| `Validation.ValidationEmptyIff` | setup/src/Magento/Setup/Controller/StartUpdater.php:103-121 | The validator returns `''` exactly when both hold: the job is not `uninstall` or `dataOption` is set; and every package has a `name` plus a `version` (other jobs) or a `type` (uninstall). |
| `Validation.ValidationOutcomes` | setup/src/Magento/Setup/Controller/StartUpdater.php:105-120 | The result is `''`, the data-option line, the package line, or both in that order. So the package line appears at most once, however many packages are bad. |
| `Validation.DataOptionLineIff` | setup/src/Magento/Setup/Controller/StartUpdater.php:108-110 | The message starts with `Missing dataOption` exactly when an uninstall job lacks `dataOption`. |
| `Controller.StartUpdater.ValidatePayload` | setup/src/Magento/Setup/Controller/StartUpdater.php:103-121 | The loop breaks at the first incomplete package. It returns the same message as checking every package. |
| `TypeFlags.ReplaceNewlinesRemovesAll` | setup/src/Magento/Setup/Controller/StartUpdater.php:140 | After the replacement no newline is left. |
| `TypeFlags.ReplaceNewlinesKeepsPlainText` | setup/src/Magento/Setup/Controller/StartUpdater.php:140 | A title without newlines is unchanged. |
| `TypeFlags.ReplaceNewlinesAppend` | setup/src/Magento/Setup/Controller/StartUpdater.php:140 | The replacement of a concatenation is the concatenation of the replacements. |
| `TypeFlags.ReplaceNewlinesLength` | setup/src/Magento/Setup/Controller/StartUpdater.php:140 | Each newline adds the five extra characters of `<br />`, and nothing else changes the length. |
| `TypeFlags.MatchingTitlesAppend` | setup/src/Magento/Setup/Controller/StartUpdater.php:137-143 | Titles follow menu order: the titles of `a + b` are those of `a` followed by those of `b`. |
| `TypeFlags.NonMatchingIgnored` | setup/src/Magento/Setup/Controller/StartUpdater.php:139 | An item whose `type` is absent or not strictly equal to the job type contributes no title. |
| `TypeFlags.MatchingTitlesMembership` | setup/src/Magento/Setup/Controller/StartUpdater.php:138-142 | A string is among the titles exactly when some item of the job's type has it as its title, after newline replacement. |
| `TypeFlags.MatchingTitlesBound` | setup/src/Magento/Setup/Controller/StartUpdater.php:138-142 | There are never more titles than items. There is one per item when every item matches. |
| `TypeFlags.MatchingTitlesHaveNoNewlines` | setup/src/Magento/Setup/Controller/StartUpdater.php:140 | No title in the flag contains a raw newline. |
| `Controller.StartUpdater.CreateTypeFlag` | setup/src/Magento/Setup/Controller/StartUpdater.php:130-146 | The flag file afterwards holds the given type and header title, and the titles of the matching menu items in menu order. |
| `Dispatch.MalformedRequestRejected` | setup/src/Magento/Setup/Controller/StartUpdater.php:71 | Without a package array or a job type, the answer is exactly `(false, 'Invalid request')`. The request is not accepted. |
| `Dispatch.SuccessIff` | setup/src/Magento/Setup/Controller/StartUpdater.php:71-93 | `success` holds exactly when all three hold: the request is well formed; the validator's conditions hold; the updater reports `''`. |
| `Dispatch.ValidationFailureReported` | setup/src/Magento/Setup/Controller/StartUpdater.php:72-73 | A well-formed request that fails validation gets `success` false. Its message is one of the three non-empty validator messages. |
| `Dispatch.AcceptedReportsUpdater` | setup/src/Magento/Setup/Controller/StartUpdater.php:84-93 | Once accepted, the message is the updater's error text. `success` holds exactly when that text is empty. |
| `Dispatch.UninstallTask` | setup/src/Magento/Setup/Controller/StartUpdater.php:74-80 | An accepted uninstall job becomes an uninstall task. Its options are exactly `{dataOption}`, which is set. The packages pass through unchanged. |
| `Dispatch.UpdateTask` | setup/src/Magento/Setup/Controller/StartUpdater.php:81-83 | Any other accepted job becomes an update task with no options. The packages pass through unchanged. |
| `Controller.StartUpdater.UpdateAction` | setup/src/Magento/Setup/Controller/StartUpdater.php:67-95 | The answer is `ResponseFor`: `success` exactly when the message is empty. The flag is written and exactly one task is logged only for an accepted request; otherwise the flag file and the task log are unchanged. |
| `Controller.StartUpdater.constructor` | setup/src/Magento/Setup/Controller/StartUpdater.php:43-48 | The controller keeps the three collaborators it is given. |
| `Controller.Updater.CreateUpdaterTask` | setup/src/Magento/Setup/Controller/StartUpdater.php:84-88 | The updater stands in for the unseen collaborator. It logs the call's arguments and returns its error text. |
| `Controller.VarDirectory.WriteTypeFile` | setup/src/Magento/Setup/Controller/StartUpdater.php:144-145 | Writing the flag file replaces its contents with the record. |

## Left out

- `indexAction` and the view and JSON-model wrappers: framework rendering glue. The answer is the `Response(success, message)` pair.
- JSON decoding of the request body and JSON encoding of the flag: library calls. The payload arrives decoded, and the flag is kept as a record. A body that fails to decode, which the library reports by an exception, is not modelled.
- The filesystem write of `.type.json`: I/O. It is a record kept by `VarDirectory`.
- The internals of the navigation model's `getMenuItems` and of the updater model's `createUpdaterTask`: not part of this model. They are a fixed menu and an updater that always answers with the same error text.
- PHP loose typing is simplified, as listed above: `==` coercion (for example, `0 == 'uninstall'` in PHP 5 and 7), `empty("0")`, and non-string menu titles (a title is a string).
- JSON numbers are integers; floating point is not modelled.
- A decoded object is assumed to have distinct field names, as a PHP array does. Iteration order with repeated keys is not modelled.
- The coding-standard adapter test under `dev/tests/static`: the adapter it tests is not part of this model. The test only checks mock calls into the external PHP_CodeSniffer runner.
- The relative order of the flag write and the task creation inside one request is not recorded; the model records that both happen.
