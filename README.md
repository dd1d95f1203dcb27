# JSON test-data provider, modelled in Dafny

This project models the JSON-driven test-data pipeline of the TDD web suite,
`JsonDataProvider` (WebAutomation-TDD). TestNG calls the data provider once for
each parameterized test method. The provider reads the test class's JSON fixture,
a map from test-method name to a list of records. It takes the list for the method
name. Every record that has an account-type key gets that account's fields from
the CSV account table, merged in with `putAll`. Each merged record is converted to
a `TestData`. Each `TestData` is then handed to the runner as a one-element
argument array, so the test runs once per record.

Everything is in `json_data_provider.dfy`, module `DataProvider`:

- `Value`, `Record`, `Document`: the parsed JSON the fixture reader yields.
- `Error`, `Result`: the exceptions the two Java methods can throw, as values.
- `Env<T>`: the collaborators the code calls but does not define. These are the
  account lookup (a total function; a missing account is the empty map), `toString`
  of a non-string account-type value, and the Jackson conversion to `TestData`
  (`None` when Jackson rejects the map). `T` stands for `TestData`.
- Specification functions: `PutAll`, `Enrich`, `Materialize`, `MaterializeAll`,
  `Lookup`, `DataArray` and `ProviderList`, plus lemmas about them.
- Methods: `JsonDataProvider` and `GetJsonDataArray`, named after the two Java
  methods; `ConvertRecord` is the body of the `forEach` lambda. Each method is proved equal
  to its specification function.

Reading the fixture file is a parameter: `fixture(n)` is what the n-th call of
`CommonUtil.readJsonFile` returns: `Some(document)`, or `None` when the file cannot
be read or parsed, which the call reports as the error `ReadFailed`.
So "the first read" is `fixture(0)` and "the re-read" is `fixture(1)`.

Key collisions follow the code. In `putAll` at line 64 the account (CSV) values
overwrite the JSON record's values for the same key. The JSON value does not
take precedence. `PutAll` and `Enrich` state this precedence explicitly.

The value of `Constants.ACCOUNT_TYPE` is not part of this model (the `Constants`
class is not available). It is taken to be `"accountType"`. Nothing in the proofs
depends on the exact string.

## Model

| member | source | states |
|---|---|---|
| `DataProvider.AccountLabel` | WebAutomation-TDD/src/main/java/com/web/automation/utils/dataprovider/JsonDataProvider.java:62 | The account is looked up by the account-type value's `toString`, and a string value is looked up by itself. |
| `DataProvider.PutAll` | WebAutomation-TDD/src/main/java/com/web/automation/utils/dataprovider/JsonDataProvider.java:64 | The merged keys are the record's keys plus the account's keys. Every account field has the account's value, so the account wins on a collision. Every record key the account does not name keeps its JSON value. |
| `DataProvider.Enrich` | WebAutomation-TDD/src/main/java/com/web/automation/utils/dataprovider/JsonDataProvider.java:60-66 | The merge fails only when the account-type key holds null. A record without the key comes back unchanged, and so does a record whose account lookup is empty. Otherwise the account fields are added and override colliding keys, and no key is removed. |
| `DataProvider.MaterializeAll` | WebAutomation-TDD/src/main/java/com/web/automation/utils/dataprovider/JsonDataProvider.java:57-69 | A successful run over the records yields exactly one result per record. |
| `DataProvider.Lookup` | WebAutomation-TDD/src/main/java/com/web/automation/utils/dataprovider/JsonDataProvider.java:51-56 | A missing key, or a null under the key, gives the empty list. An array gives its elements. Any other value fails the cast. |
| `DataProvider.DataArray` | WebAutomation-TDD/src/main/java/com/web/automation/utils/dataprovider/JsonDataProvider.java:50-70 | A failed read gives `ReadFailed`. A missing or null key gives the empty list. A value that is not a list gives `NotAList`. An array of records gives the in-order outcome of processing its elements. |
| `DataProvider.AccountOf` | WebAutomation-TDD/src/main/java/com/web/automation/utils/dataprovider/JsonDataProvider.java:62 | The account fields are those the account table gives for the record's account type; a string account type is looked up by its own text. |
| `DataProvider.Materialize` | WebAutomation-TDD/src/main/java/com/web/automation/utils/dataprovider/JsonDataProvider.java:59-68 | One list element yields a `TestData` exactly when it is an object whose merge and conversion succeed, and then it is the conversion of the merged record. Otherwise the error names the element's position and the failing step: not an object, null account type, or rejected conversion. |
| `DataProvider.ProviderList` | WebAutomation-TDD/src/main/java/com/web/automation/utils/dataprovider/JsonDataProvider.java:31-34 | The second read's result is used exactly when the first read gave the empty list; otherwise the first read's result (list or error) is used. |
| `DataProvider.MaterializeAllPointwise` | WebAutomation-TDD/src/main/java/com/web/automation/utils/dataprovider/JsonDataProvider.java:57-69 | A successful run has the input's length, and its i-th `TestData` is what the i-th record alone yields: order and length are preserved. |
| `DataProvider.MaterializeAllSucceeds` | WebAutomation-TDD/src/main/java/com/web/automation/utils/dataprovider/JsonDataProvider.java:59-68 | The list succeeds if and only if every record can be merged and converted. |
| `DataProvider.MaterializeAllFirstError` | WebAutomation-TDD/src/main/java/com/web/automation/utils/dataprovider/JsonDataProvider.java:59-68 | A failed list reports the error of the first record that fails. Every earlier record succeeds. |
| `DataProvider.MaterializeAllPrefixError` | WebAutomation-TDD/src/main/java/com/web/automation/utils/dataprovider/JsonDataProvider.java:59-68 | An exception in a prefix aborts the whole `forEach` with that same exception. Later records are not processed. |
| `DataProvider.MaterializeAllStep` | WebAutomation-TDD/src/main/java/com/web/automation/utils/dataprovider/JsonDataProvider.java:59-68 | Processing one more record appends that record's `TestData` to the list, or ends the run with its error. |
| `DataProvider.RecordOutcome` | WebAutomation-TDD/src/main/java/com/web/automation/utils/dataprovider/JsonDataProvider.java:59-67 | After a successful call, each output `TestData` comes from the record at the same position. If that record has no account-type key, or its account lookup is empty, the output is the conversion of the unchanged record. Otherwise it is the conversion of the record merged with the account. |
| `DataProvider.DeterministicReaderNoEffect` | WebAutomation-TDD/src/main/java/com/web/automation/utils/dataprovider/JsonDataProvider.java:31-34 | When the reader returns the same document both times, the list the provider uses equals the first read's. |
| `DataProvider.ConvertRecord` | WebAutomation-TDD/src/main/java/com/web/automation/utils/dataprovider/JsonDataProvider.java:59-68 | The lambda body computes exactly the per-record specification `Materialize`, and its errors carry its own index. |
| `DataProvider.GetJsonDataArray` | WebAutomation-TDD/src/main/java/com/web/automation/utils/dataprovider/JsonDataProvider.java:50-70 | The loop over the records returns exactly `DataArray`. A missing key gives the empty list. On success there is one `TestData` per record. |
| `DataProvider.JsonDataProvider` | WebAutomation-TDD/src/main/java/com/web/automation/utils/dataprovider/JsonDataProvider.java:27-40 | The file is read a second time exactly when the first result is the empty list. An error propagates. On success the provider yields one one-element argument array per `TestData`, in list order. |

## Left out

- Reading and parsing the fixture file (`CommonUtil.readJsonFile`) is not part of this model. It is the parameter `fixture`; every kind of read or parse failure is the one error `ReadFailed`.
- Loading the CSV account table (`CSVDataUtil.getAccount`, `loadAccounts`) is not part of this model. It is the total function `Env.account`.
- The Jackson conversion `ObjectMapper.convertValue` is the abstract `Env.convert`. Which maps it accepts, and how it fills the `TestData` fields, are not modelled.
- `Object.toString` of a non-string account-type value is the abstract `Env.render`.
- Building the fixture file name from `Constants.JSON_DATA_FILE` and the class name (lines 28-30) is left out. That format string is not available, and only the resulting reads matter.
- `parallel = true` (line 26) is runner concurrency and is left out.
- The logging call at line 54 has no effect on the result and is left out.
- Records are values. The Java merges into the parsed map in place. That map belongs to a document that is discarded after the call, so the in-place update cannot be observed, and the model reassigns a local value instead.
- The returned `Iterator<Object[]>` is modelled as the sequence it iterates. Each `Object[]` is a one-element `seq`, so array identity and freshness are not captured.
- JSON numbers are modelled as integers. Floating-point values play no part in the pipeline.
- Page objects, test classes, step definitions, runners and the REST API tests are browser or network glue. They are outside this model.
