/**
 * The JSON-driven test-data pipeline of the TDD web suite: a fixture document maps a
 * test-method name to a list of records; every record that names an account type is
 * merged with that account's fields from the CSV account table, converted to a
 * TestData, and each TestData is handed to the test runner as a one-element argument
 * array, one test invocation per record.
 *
 * What the pipeline calls but does not define is a parameter: the fixture reader, the
 * account table, `toString` of a non-string account-type value, and the Jackson
 * conversion of a merged map to TestData (which may reject the map).
 */
module DataProvider {

  /** A parsed JSON value, as the fixture reader yields it. */
  datatype Value =
    | JNull
    | JBool(b: bool)
    | JNum(n: int)
    | JStr(s: string)
    | JArr(items: seq<Value>)
    | JObj(fields: map<string, Value>)

  /** One fixture record: field name to value. */
  type Record = map<string, Value>

  /** A parsed fixture file: test-method name to (normally) a list of records. */
  type Document = map<string, Value>

  /** The ways a call can fail; each carries the position of the record that caused it. */
  datatype Error =
    | ReadFailed                  // the fixture file is missing or is not valid JSON
    | NotAList                    // the value under the method name is not a JSON array
    | NotAnObject(index: nat)     // a list element is not a JSON object (or is null)
    | NullAccountType(index: nat) // the account-type key is present with a null value
    | ConversionFailed(index: nat) // the merged record cannot be converted to TestData

  datatype Result<T> = Ok(value: T) | Err(error: Error)

  datatype Option<T> = None | Some(value: T)

  /** The collaborators the pipeline calls; `T` is the TestData record type. */
  datatype Env<T> = Env(
    account: string -> map<string, string>, // account table; a miss is the empty map
    render: Value -> string,                // toString of a value that is not a string
    convert: Record -> Option<T>            // conversion to TestData; None when rejected
  )

  /** The record key that names an account type. */
  const ACCOUNT_TYPE: string := "accountType"

  /** The text used to look up an account: a string is its own text. */
  function AccountLabel<T>(env: Env<T>, v: Value): (text: string)
    ensures v.JStr? ==> text == v.s
  {
    if v.JStr? then v.s else env.render(v)
  }

  /** The account fields named by a record's account type. */
  function AccountOf<T>(env: Env<T>, data: Record): (accountData: map<string, string>)
    requires ACCOUNT_TYPE in data
    ensures data[ACCOUNT_TYPE].JStr? ==> accountData == env.account(data[ACCOUNT_TYPE].s)
  {
    env.account(AccountLabel(env, data[ACCOUNT_TYPE]))
  }

  /** `data.putAll(accountData)`: the account's (string) values are written over the record. */
  function PutAll(data: Record, accountData: map<string, string>): (merged: Record)
    ensures merged.Keys == data.Keys + accountData.Keys
    ensures forall k :: k in accountData ==> k in merged && merged[k] == JStr(accountData[k])
    ensures forall k :: k in data && k !in accountData ==> k in merged && merged[k] == data[k]
  {
    data + map k | k in accountData :: JStr(accountData[k])
  }

  /** The account merge of one record, the `index`-th of its list. */
  function Enrich<T>(env: Env<T>, data: Record, index: nat): (r: Result<Record>)
    // the only failure: an account-type key whose value is null
    ensures r.Err? <==> ACCOUNT_TYPE in data && data[ACCOUNT_TYPE].JNull?
    ensures r.Err? ==> r.error == NullAccountType(index)
    // no account-type key, or an account that is not found: the record is unchanged
    ensures ACCOUNT_TYPE !in data ==> r == Ok(data)
    ensures r.Ok? && ACCOUNT_TYPE in data && AccountOf(env, data) == map[] ==> r.value == data
    // otherwise the account's fields are added and win on a collision; nothing is removed
    ensures r.Ok? && ACCOUNT_TYPE in data ==>
      && r.value.Keys == data.Keys + AccountOf(env, data).Keys
      && (forall k :: k in AccountOf(env, data) ==> r.value[k] == JStr(AccountOf(env, data)[k]))
      && (forall k :: k in data && k !in AccountOf(env, data) ==> r.value[k] == data[k])
  {
    if ACCOUNT_TYPE !in data then Ok(data)
    else if data[ACCOUNT_TYPE].JNull? then Err(NullAccountType(index))
    else
      var accountData := AccountOf(env, data);
      if accountData == map[] then Ok(data) else Ok(PutAll(data, accountData))
  }

  /** The TestData made from the `index`-th list element, or why it could not be made. */
  function Materialize<T>(env: Env<T>, item: Value, index: nat): (r: Result<T>)
    // it succeeds exactly when the element is an object whose merge and conversion succeed
    ensures r.Ok? <==>
      item.JObj? && Enrich(env, item.fields, index).Ok? &&
      env.convert(Enrich(env, item.fields, index).value).Some?
    ensures r.Ok? ==> Some(r.value) == env.convert(Enrich(env, item.fields, index).value)
    // a failure names this element's position, and which step failed
    ensures !item.JObj? ==> r == Err(NotAnObject(index))
    ensures item.JObj? && Enrich(env, item.fields, index).Err? ==> r == Err(NullAccountType(index))
    ensures (item.JObj? && Enrich(env, item.fields, index).Ok? &&
             env.convert(Enrich(env, item.fields, index).value).None?) ==> r == Err(ConversionFailed(index))
  {
    if !item.JObj? then Err(NotAnObject(index))
    else
      match Enrich(env, item.fields, index)
      case Err(e) => Err(e)
      case Ok(merged) =>
        match env.convert(merged)
        case None => Err(ConversionFailed(index))
        case Some(t) => Ok(t)
  }

  /** The elements processed in order; the first failure ends the whole call. */
  function MaterializeAll<T>(env: Env<T>, items: seq<Value>): (r: Result<seq<T>>)
    ensures r.Ok? ==> |r.value| == |items|
  {
    if items == [] then Ok([])
    else
      match MaterializeAll(env, items[..|items| - 1])
      case Err(e) => Err(e)
      case Ok(done) =>
        match Materialize(env, items[|items| - 1], |items| - 1)
        case Err(e) => Err(e)
        case Ok(t) => Ok(done + [t])
  }

  /** The records listed under `key` in a successfully read document. */
  function Lookup(doc: Document, key: string): (r: Result<seq<Value>>)
    ensures key !in doc || doc[key].JNull? ==> r == Ok([])
    ensures r.Ok? && key in doc && !doc[key].JNull? ==> doc[key] == JArr(r.value)
    ensures r.Err? <==> key in doc && !doc[key].JNull? && !doc[key].JArr?
  {
    if key !in doc || doc[key].JNull? then Ok([])
    else if doc[key].JArr? then Ok(doc[key].items)
    else Err(NotAList)
  }

  /**
   * What `getJsonDataArray` returns (or throws) for one read of the fixture file;
   * `fixture` is the parsed document, or None when the file could not be read or parsed.
   */
  function DataArray<T>(env: Env<T>, fixture: Option<Document>, key: string): (r: Result<seq<T>>)
    ensures fixture.None? ==> r == Err(ReadFailed)
    ensures fixture.Some? && (key !in fixture.value || fixture.value[key].JNull?) ==> r == Ok([])
    ensures fixture.Some? && key in fixture.value && !fixture.value[key].JNull? && !fixture.value[key].JArr? ==>
      r == Err(NotAList)
    ensures fixture.Some? && key in fixture.value && fixture.value[key].JArr? ==>
      r == MaterializeAll(env, fixture.value[key].items)
  {
    match fixture
    case None => Err(ReadFailed)
    case Some(doc) =>
      match Lookup(doc, key)
      case Err(e) => Err(e)
      case Ok(items) => MaterializeAll(env, items)
  }

  /** Whether a `getJsonDataArray` outcome is the empty list, which triggers the re-read. */
  predicate IsEmptyList<T>(r: Result<seq<T>>)
  {
    r.Ok? && |r.value| == 0
  }

  /** The list `jsonDataProvider` hands on, when `fixture(n)` is what the n-th read yields. */
  function ProviderList<T>(env: Env<T>, fixture: nat -> Option<Document>, testName: string): (r: Result<seq<T>>)
    // the second read is used exactly when the first gave the empty list
    ensures IsEmptyList(DataArray(env, fixture(0), testName)) ==> r == DataArray(env, fixture(1), testName)
    ensures !IsEmptyList(DataArray(env, fixture(0), testName)) ==> r == DataArray(env, fixture(0), testName)
  {
    var first := DataArray(env, fixture(0), testName);
    if IsEmptyList(first) then DataArray(env, fixture(1), testName) else first
  }

  // ---------------------------------------------------------------------------------
  // Lemmas about the specification functions
  // ---------------------------------------------------------------------------------

  /** A successful run yields one TestData per element, in order, each that element's own. */
  lemma {:induction false} MaterializeAllPointwise<T>(env: Env<T>, items: seq<Value>)
    requires MaterializeAll(env, items).Ok?
    ensures |MaterializeAll(env, items).value| == |items|
    ensures forall i :: 0 <= i < |items| ==>
      Materialize(env, items[i], i) == Ok(MaterializeAll(env, items).value[i])
  {
    if items != [] {
      var init := items[..|items| - 1];
      MaterializeAllPointwise(env, init);
      forall i | 0 <= i < |items| - 1
        ensures Materialize(env, items[i], i) == Ok(MaterializeAll(env, items).value[i])
      {
        assert items[i] == init[i];
      }
    }
  }

  /** The run succeeds exactly when every element can be materialized. */
  lemma {:induction false} MaterializeAllSucceeds<T>(env: Env<T>, items: seq<Value>)
    ensures MaterializeAll(env, items).Ok? <==>
      forall i :: 0 <= i < |items| ==> Materialize(env, items[i], i).Ok?
  {
    if items != [] {
      var init := items[..|items| - 1];
      MaterializeAllSucceeds(env, init);
      assert forall i :: 0 <= i < |init| ==> init[i] == items[i];
    }
  }

  /** A failed run reports the failure of the first element that fails. */
  lemma {:induction false} MaterializeAllFirstError<T>(env: Env<T>, items: seq<Value>)
    requires MaterializeAll(env, items).Err?
    ensures exists j :: (0 <= j < |items| &&
                         Materialize(env, items[j], j) == Err(MaterializeAll(env, items).error) &&
                         forall i :: 0 <= i < j ==> Materialize(env, items[i], i).Ok?)
  {
    var init := items[..|items| - 1];
    assert forall i :: 0 <= i < |init| ==> init[i] == items[i];
    match MaterializeAll(env, init)
    case Err(_) =>
      MaterializeAllFirstError(env, init);
    case Ok(_) =>
      MaterializeAllSucceeds(env, init);
      var j := |items| - 1;
      assert Materialize(env, items[j], j) == Err(MaterializeAll(env, items).error);
  }

  /** Once a prefix fails, the whole list fails with the same error. */
  lemma {:induction false} MaterializeAllPrefixError<T>(env: Env<T>, items: seq<Value>, n: nat)
    requires n <= |items|
    requires MaterializeAll(env, items[..n]).Err?
    ensures MaterializeAll(env, items) == MaterializeAll(env, items[..n])
  {
    if n < |items| {
      var init := items[..|items| - 1];
      assert init[..n] == items[..n];
      MaterializeAllPrefixError(env, init, n);
    } else {
      assert items[..n] == items;
    }
  }

  /** Processing one more element extends the outcome of the prefix by that element's. */
  lemma MaterializeAllStep<T>(env: Env<T>, items: seq<Value>, n: nat, done: seq<T>)
    requires n < |items|
    requires MaterializeAll(env, items[..n]) == Ok(done)
    ensures MaterializeAll(env, items[..n + 1]) ==
      match Materialize(env, items[n], n)
      case Err(e) => Err(e)
      case Ok(t) => Ok(done + [t])
  {
    assert items[..n + 1][..n] == items[..n];
  }

  /**
   * What each TestData of a successful call is: the conversion of the element's record
   * after the account merge; of the record itself when it names no account type or an
   * account that is not found.
   */
  lemma RecordOutcome<T>(env: Env<T>, doc: Document, key: string, i: nat)
    requires DataArray(env, Some(doc), key).Ok?
    requires key in doc && doc[key].JArr? && i < |doc[key].items|
    ensures |DataArray(env, Some(doc), key).value| == |doc[key].items|
    ensures doc[key].items[i].JObj?
    ensures var data := doc[key].items[i].fields;
      var out := DataArray(env, Some(doc), key).value;
      && (ACCOUNT_TYPE !in data ==> env.convert(data) == Some(out[i]))
      && (ACCOUNT_TYPE in data ==> !data[ACCOUNT_TYPE].JNull?)
      && (ACCOUNT_TYPE in data && AccountOf(env, data) == map[] ==> env.convert(data) == Some(out[i]))
      && (ACCOUNT_TYPE in data && AccountOf(env, data) != map[] ==>
            env.convert(PutAll(data, AccountOf(env, data))) == Some(out[i]))
  {
    MaterializeAllPointwise(env, doc[key].items);
  }

  /**
   * With a reader that returns the same document on both reads, the list handed on is
   * exactly what the first read produced: the re-read changes nothing.
   */
  lemma DeterministicReaderNoEffect<T>(env: Env<T>, fixture: nat -> Option<Document>, testName: string)
    requires fixture(0) == fixture(1)
    ensures ProviderList(env, fixture, testName) == DataArray(env, fixture(0), testName)
  {
  }

  // ---------------------------------------------------------------------------------
  // The two operations
  // ---------------------------------------------------------------------------------

  /**
   * The body of the `forEach` in `getJsonDataArray`: merge the element's account data
   * into it and convert it; `index` is its position in the list. Its reference
   * definition is the function `Materialize`.
   */
  method ConvertRecord<T>(env: Env<T>, item: Value, index: nat) returns (r: Result<T>)
    ensures r == Materialize(env, item, index)
    ensures r.Err? ==> r.error in {NotAnObject(index), NullAccountType(index), ConversionFailed(index)}
  {
    if !item.JObj? {
      return Err(NotAnObject(index));
    }
    var data := item.fields;
    if ACCOUNT_TYPE in data {
      if data[ACCOUNT_TYPE].JNull? {
        return Err(NullAccountType(index));
      }
      var accountData := env.account(AccountLabel(env, data[ACCOUNT_TYPE]));
      if accountData != map[] {
        data := PutAll(data, accountData);
      }
    }
    var converted := env.convert(data);
    if converted.None? {
      return Err(ConversionFailed(index));
    }
    r := Ok(converted.value);
  }

  /**
   * `getJsonDataArray`: look the method name up in the read document, merge and convert
   * each record in order; `fixture` is what reading the file yields.
   */
  method GetJsonDataArray<T>(env: Env<T>, fixture: Option<Document>, key: string)
    returns (r: Result<seq<T>>)
    ensures r == DataArray(env, fixture, key)
    ensures fixture.Some? && key !in fixture.value ==> r == Ok([])
    ensures r.Ok? && fixture.Some? && key in fixture.value && fixture.value[key].JArr? ==>
      |r.value| == |fixture.value[key].items|
  {
    if fixture.None? {
      return Err(ReadFailed);
    }
    var jsonData := fixture.value;
    if key !in jsonData || jsonData[key].JNull? {
      return Ok([]);
    }
    if !jsonData[key].JArr? {
      return Err(NotAList);
    }
    var dataList := jsonData[key].items;
    var testDataList: seq<T> := [];
    var i := 0;
    while i < |dataList|
      invariant 0 <= i <= |dataList|
      invariant MaterializeAll(env, dataList[..i]) == Ok(testDataList)
    {
      var testData := ConvertRecord(env, dataList[i], i);
      MaterializeAllStep(env, dataList, i, testDataList);
      if testData.Err? {
        MaterializeAllPrefixError(env, dataList, i + 1);
        return Err(testData.error);
      }
      testDataList := testDataList + [testData.value];
      i := i + 1;
    }
    assert dataList[..i] == dataList;
    r := Ok(testDataList);
  }

  /**
   * `jsonDataProvider`: read the list once, once more if it came back empty, and wrap
   * each TestData in a one-element argument array. `readCount` is how often the file was read.
   */
  method JsonDataProvider<T>(env: Env<T>, fixture: nat -> Option<Document>, testName: string)
    returns (r: Result<seq<seq<T>>>, readCount: nat)
    ensures readCount == if IsEmptyList(DataArray(env, fixture(0), testName)) then 2 else 1
    ensures r.Err? <==> ProviderList(env, fixture, testName).Err?
    ensures r.Err? ==> r.error == ProviderList(env, fixture, testName).error
    ensures r.Ok? ==>
      var list := ProviderList(env, fixture, testName).value;
      && |r.value| == |list|
      && forall i :: 0 <= i < |list| ==> r.value[i] == [list[i]]
  {
    var jsonDataList := GetJsonDataArray(env, fixture(0), testName);
    readCount := 1;
    if jsonDataList.Ok? && |jsonDataList.value| == 0 {
      jsonDataList := GetJsonDataArray(env, fixture(1), testName);
      readCount := 2;
    }
    if jsonDataList.Err? {
      return Err(jsonDataList.error), readCount;
    }
    var list := jsonDataList.value;
    var dataList: seq<seq<T>> := [];
    for i := 0 to |list|
      invariant |dataList| == i
      invariant forall k :: 0 <= k < i ==> dataList[k] == [list[k]]
    {
      dataList := dataList + [[list[i]]];
    }
    r := Ok(dataList);
  }
}
