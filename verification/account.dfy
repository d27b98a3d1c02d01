/**
 * The `Account` facade: account resources fetched through the connection, checked for
 * an error block, and pending transfers and owned notes normalised element by element.
 */
module AccountApi {
  import opened Wrappers
  import opened Json
  import opened Errors
  import opened Builtins
  import opened Resource
  import Format
  import Http

  const TransferDatetimeFields: seq<string> := ["transferDate", "endDate"]
  const NoteDatetimeFields: seq<string> := ["loanStatusDate", "orderDate", "issueDate", "nextPaymentDate"]

  /** Human-readable transfer frequencies and the tokens they stand for. */
  const TransferFrequencyMapping: map<string, string> := map[
    "One Time" := "LOAD_ONCE",
    "Weekly" := "LOAD_WEEKLY",
    "Every Other Week" := "LOAD_BIWEEKLY",
    "1st and 16th of each Month" := "LOAD_ON_DAY_1_AND_16",
    "Monthly" := "LOAD_MONTHLY"]

  const FrequencyKey := "frequency"
  const AccountApiRoot := "accounts/{0}/{1}"
  const MissingConnectionMessage := "connection must be a non-None Connection object"
  const MissingAccountIdMessage := "account_id must be a non-None integer account ID"

  /**
   * The date converter `pylend._convert_datetimes(record, fields)` that this file calls.
   * The `pylend` package namespace exports no such name (only `loans.py` defines a
   * one-argument `_convert_datetimes` of its own), so it is a parameter of the operations
   * that use it.
   */
  type Converter = (Value, seq<string>) -> Result<Value, Error>

  /** The frequency table has exactly five entries, with five distinct tokens none of which is itself a key. */
  lemma FrequencyTable()
    ensures TransferFrequencyMapping.Keys ==
      {"One Time", "Weekly", "Every Other Week", "1st and 16th of each Month", "Monthly"}
    ensures |TransferFrequencyMapping| == 5
    ensures TransferFrequencyMapping["One Time"] == "LOAD_ONCE"
    ensures TransferFrequencyMapping["1st and 16th of each Month"] == "LOAD_ON_DAY_1_AND_16"
    ensures forall a, b :: a in TransferFrequencyMapping && b in TransferFrequencyMapping && a != b ==>
              TransferFrequencyMapping[a] != TransferFrequencyMapping[b]
    ensures forall a :: a in TransferFrequencyMapping ==> TransferFrequencyMapping[a] !in TransferFrequencyMapping
  {
    var m := TransferFrequencyMapping;
    assert m.Keys == {"One Time", "Weekly", "Every Other Week", "1st and 16th of each Month", "Monthly"};
    forall a | a in m
      ensures m[a] !in m
    {
      if a == "One Time" {} else if a == "Weekly" {} else if a == "Every Other Week" {} else if a == "Monthly" {} else {}
    }
    forall a, b | a in m && b in m && a != b
      ensures m[a] != m[b]
    {
      if a == "One Time" {} else if a == "Weekly" {} else if a == "Every Other Week" {} else if a == "Monthly" {} else {}
    }
  }

  /** The table lookup: a listed frequency becomes its token, anything else fails and is never passed through. */
  function RemapFrequency(frequency: Value): (r: Result<Value, Error>)
    ensures r.Ok? <==> frequency.Str? && frequency.s in TransferFrequencyMapping.Keys
    ensures r.Ok? ==> r.value == Str(TransferFrequencyMapping[frequency.s])
    ensures r.Ok? ==> r.value.Str? && r.value.s in TransferFrequencyMapping.Values && r.value != frequency
    ensures frequency.Str? && frequency.s !in TransferFrequencyMapping ==> r == Err(KeyError(frequency))
  {
    FrequencyTable();
    Lookup(TransferFrequencyMapping, frequency)
  }

  /** `_normalize_transfer`: convert the two date fields, then replace the frequency by its token. */
  function NormalizeTransfer(convert: Converter, transfer: Value): (r: Result<Value, Error>)
    ensures var c := convert(transfer, TransferDatetimeFields);
      && (c.Err? ==> r == c)
      && (r.Ok? ==> && c.Ok?
                    && ChangesOnly(c.value, r.value, [FrequencyKey])
                    && FrequencyKey in c.value.fields
                    && RemapFrequency(c.value.fields[FrequencyKey]) == Ok(r.value.fields[FrequencyKey]))
      && (c.Ok? && c.value.Obj? && FrequencyKey !in c.value.fields ==> r == Err(KeyError(Str(FrequencyKey))))
  {
    var converted :- convert(transfer, TransferDatetimeFields);
    var frequency :- GetItem(converted, FrequencyKey);
    var token :- RemapFrequency(frequency);
    SetItem(converted, FrequencyKey, token)
  }

  /**
   * For a converter that touches only the date fields, a normalised transfer differs from
   * the original only in those fields and the frequency, and normalisation fails exactly
   * when the original frequency is missing or not in the table.
   */
  lemma NormalizeTransferFrame(convert: Converter, transfer: Value)
    requires convert(transfer, TransferDatetimeFields).Ok?
    requires ChangesOnly(transfer, convert(transfer, TransferDatetimeFields).value, TransferDatetimeFields)
    ensures var r := NormalizeTransfer(convert, transfer);
      && (r.Ok? <==> FrequencyKey in transfer.fields && RemapFrequency(transfer.fields[FrequencyKey]).Ok?)
      && (r.Ok? ==> && ChangesOnly(transfer, r.value, TransferDatetimeFields + [FrequencyKey])
                    && RemapFrequency(transfer.fields[FrequencyKey]) == Ok(r.value.fields[FrequencyKey]))
      && (FrequencyKey in transfer.fields && transfer.fields[FrequencyKey].Str?
            && transfer.fields[FrequencyKey].s !in TransferFrequencyMapping
          ==> r == Err(KeyError(transfer.fields[FrequencyKey])))
  {
    var c := convert(transfer, TransferDatetimeFields).value;
    assert FrequencyKey !in TransferDatetimeFields;
    if FrequencyKey in transfer.fields {
      assert c.fields[FrequencyKey] == transfer.fields[FrequencyKey];
    }
  }

  /**
   * A converter with the behaviour the pending-transfer test pins: an object is required,
   * absent fields are skipped, a null stays null and any other listed value is parsed.
   */
  function LenientConvert(parse: Parser, record: Value, fields: seq<string>): (r: Result<Value, Error>)
    ensures r.Ok? ==> ChangesOnly(record, r.value, fields)
    ensures r.Ok? ==> forall k :: k in record.fields && record.fields[k] == Null ==> r.value.fields[k] == Null
    ensures record.Obj? && (forall x :: parse(x).Ok?) ==> r.Ok?
    ensures !record.Obj? ==> r == Err(TypeError)
    ensures r.Ok? && Distinct(fields) ==> forall i :: 0 <= i < |fields| && fields[i] in record.fields && record.fields[fields[i]] != Null ==>
      parse(record.fields[fields[i]]).Ok? && r.value.fields[fields[i]] == Time(parse(record.fields[fields[i]]).value)
    decreases |fields|
  {
    match record
    case Obj(m) =>
      if |fields| == 0 then Ok(record)
      else if fields[0] in m && m[fields[0]] != Null then
        var t :- parse(m[fields[0]]);
        var rest := LenientConvert(parse, Obj(m[fields[0] := Time(t)]), fields[1..]);
        assert Distinct(fields) ==> Distinct(fields[1..]) && fields[0] !in fields[1..];
        rest
      else
        var rest := LenientConvert(parse, record, fields[1..]);
        assert Distinct(fields) ==> Distinct(fields[1..]);
        rest
    case _ => Err(TypeError)
  }

  /** With the lenient converter a transfer whose end date is null keeps it null, and "One Time" becomes LOAD_ONCE. */
  lemma NullEndDateStaysNull(parse: Parser, transfer: map<string, Value>)
    requires "endDate" in transfer && transfer["endDate"] == Null
    requires FrequencyKey in transfer && transfer[FrequencyKey] == Str("One Time")
    requires forall x :: parse(x).Ok?
    ensures var r := NormalizeTransfer((v, fs) => LenientConvert(parse, v, fs), Obj(transfer));
      && r.Ok?
      && r.value.fields["endDate"] == Null
      && r.value.fields[FrequencyKey] == Str("LOAD_ONCE")
      && ("transferDate" in transfer && transfer["transferDate"] != Null ==>
            r.value.fields["transferDate"] == Time(parse(transfer["transferDate"]).value))
  {
    var convert: Converter := (v, fs) => LenientConvert(parse, v, fs);
    var c := LenientConvert(parse, Obj(transfer), TransferDatetimeFields);
    assert convert(Obj(transfer), TransferDatetimeFields) == c;
    assert c.Ok?;
    assert Distinct(TransferDatetimeFields);
    assert TransferDatetimeFields[0] == "transferDate";
    NormalizeTransferFrame(convert, Obj(transfer));
    FrequencyTable();
  }

  /**
   * `_normalize_received_json`: the list under `key` is replaced by the normaliser applied
   * to each element in order; nothing else in the payload changes.
   */
  function NormalizeReceivedJson(payload: Value, key: string, normalizer: Value -> Result<Value, Error>): (r: Result<Value, Error>)
    ensures r.Ok? ==> && payload.Obj?
                      && key in payload.fields
                      && ChangesOnly(payload, r.value, [key])
                      && Iterate(payload.fields[key]).Ok?
                      && r.value.fields[key].Arr?
                      && Pointwise(normalizer, Iterate(payload.fields[key]).value, r.value.fields[key].items)
    ensures payload.Obj? && key in payload.fields && payload.fields[key].Arr? ==>
              (r.Ok? <==> forall i :: 0 <= i < |payload.fields[key].items| ==> normalizer(payload.fields[key].items[i]).Ok?)
    ensures payload.Obj? && key !in payload.fields ==> r == Err(KeyError(Str(key)))
    ensures !payload.Obj? ==> r == Err(TypeError)
  {
    var current :- GetItem(payload, key);
    var items :- Iterate(current);
    var normalized :- MapEach(items, normalizer);
    SetItem(payload, key, Arr(normalized))
  }

  /**
   * The expression `pending_transfers` and `owned_notes` share: the normalised list under
   * `key` when the payload has one, otherwise the empty list.
   */
  function NormalizedListOrEmpty(payload: Value, key: string, normalizer: Value -> Result<Value, Error>): (r: Result<Value, Error>)
    ensures payload.Obj? && key !in payload.fields ==> r == Ok(Arr([]))
    ensures payload.Obj? && key in payload.fields && payload.fields[key].Arr? ==>
      && (r.Ok? <==> forall i :: 0 <= i < |payload.fields[key].items| ==> normalizer(payload.fields[key].items[i]).Ok?)
      && (r.Ok? ==> r.value.Arr? && Pointwise(normalizer, payload.fields[key].items, r.value.items))
  {
    var present :- In(key, payload);
    if present then
      var normalized :- NormalizeReceivedJson(payload, key, normalizer);
      GetItem(normalized, key)
    else
      Ok(Arr([]))
  }

  /** An `Account`: the connection and the account identifier as `str` renders it. */
  datatype Account = Account(connection: Getter, accountId: string)

  /** The constructor: the connection is checked first, then the account identifier. */
  function New(connection: Option<Getter>, accountId: Option<string>): (r: Result<Account, Error>)
    ensures r.Err? <==> connection.None? || accountId.None?
    ensures connection.None? ==> r == Err(ValueError(MissingConnectionMessage))
    ensures connection.Some? && accountId.None? ==> r == Err(ValueError(MissingAccountIdMessage))
    ensures r.Ok? ==> r.value.accountId == accountId.value
  {
    if connection.None? then Err(ValueError(MissingConnectionMessage))
    else if accountId.None? then Err(ValueError(MissingAccountIdMessage))
    else Ok(Account(connection.value, accountId.value))
  }

  /** The path of an account resource: `accounts/<id>/<resource>`. */
  function ResourcePath(accountId: string, resource: string): (path: string)
    ensures path == "accounts/" + accountId + "/" + resource
  {
    assert AccountApiRoot == "accounts/" + "{0}" + "/" + "{1}";
    Format.FillTwo("accounts/", "/", accountId, resource);
    Format.Format2(AccountApiRoot, accountId, resource)
  }

  /** `_account_resource_get`: fetch the resource with the default version and no query, then check for an error block. */
  function AccountResourceGet(a: Account, resource: string): (r: Result<Value, Error>)
    ensures var f := a.connection("accounts/" + a.accountId + "/" + resource, "v1", None);
      && (f.Err? ==> r == f)
      && (f.Ok? && f.value.Obj? ==>
            (r.Err? <==> ErrorsKey in f.value.fields) && (r.Ok? ==> r.value == f.value))
      && (f.Ok? && f.value.Obj? && ErrorsKey in f.value.fields ==> r == Err(ExecutionFailure))
      && (f.Ok? && f.value.Arr? && Str(ErrorsKey) in f.value.items ==> r == Err(TypeError))
      && (r.Ok? ==> r == f)
  {
    var payload :- a.connection(ResourcePath(a.accountId, resource), Http.DefaultApiVersion, None);
    CheckForErrors(payload)
  }

  /** `account_summary`. */
  function AccountSummary(a: Account): (r: Result<Value, Error>)
    ensures var f := a.connection("accounts/" + a.accountId + "/" + "summary", "v1", None);
      && (f.Ok? && f.value.Obj? && ErrorsKey in f.value.fields ==> r == Err(ExecutionFailure))
      && (Clean(f) ==> r == f)
  {
    AccountResourceGet(a, "summary")
  }

  /** `available_cash`. */
  function AvailableCash(a: Account): (r: Result<Value, Error>)
    ensures var f := a.connection("accounts/" + a.accountId + "/" + "availablecash", "v1", None);
      && (f.Ok? && f.value.Obj? && ErrorsKey in f.value.fields ==> r == Err(ExecutionFailure))
      && (Clean(f) ==> r == f)
  {
    AccountResourceGet(a, "availablecash")
  }

  /** `pending_transfers`: the transfers of `funds/pending`, each normalised, or the empty list. */
  function PendingTransfers(a: Account, convert: Converter): (r: Result<Value, Error>)
    ensures var f := a.connection("accounts/" + a.accountId + "/" + "funds/pending", "v1", None);
      && (f.Err? ==> r == f)
      && (f.Ok? && f.value.Obj? && ErrorsKey in f.value.fields ==> r == Err(ExecutionFailure))
      && (Clean(f) && "transfers" !in f.value.fields ==> r == Ok(Arr([])))
      && (Clean(f) && "transfers" in f.value.fields && f.value.fields["transfers"].Arr? ==>
            var items := f.value.fields["transfers"].items;
            && (r.Ok? <==> forall i :: 0 <= i < |items| ==> NormalizeTransfer(convert, items[i]).Ok?)
            && (r.Ok? ==> && r.value.Arr?
                          && |r.value.items| == |items|
                          && forall i :: 0 <= i < |items| ==> NormalizeTransfer(convert, items[i]) == Ok(r.value.items[i])))
  {
    var payload :- AccountResourceGet(a, "funds/pending");
    NormalizedListOrEmpty(payload, "transfers", t => NormalizeTransfer(convert, t))
  }

  /** The resource `owned_notes` requests: `detailednotes` exactly when detailed information is asked for. */
  function NotesResource(detailedInfo: bool): (resource: string)
    ensures resource == "detailednotes" <==> detailedInfo
    ensures resource == "notes" <==> !detailedInfo
  {
    if detailedInfo then "detailednotes" else "notes"
  }

  /** `owned_notes`: the notes, each with its four date fields converted, or the empty list. */
  function OwnedNotes(a: Account, convert: Converter, detailedInfo: bool := false): (r: Result<Value, Error>)
    ensures var f := a.connection("accounts/" + a.accountId + "/" + NotesResource(detailedInfo), "v1", None);
      && (f.Err? ==> r == f)
      && (f.Ok? && f.value.Obj? && ErrorsKey in f.value.fields ==> r == Err(ExecutionFailure))
      && (Clean(f) && "myNotes" !in f.value.fields ==> r == Ok(Arr([])))
      && (Clean(f) && "myNotes" in f.value.fields && f.value.fields["myNotes"].Arr? ==>
            var items := f.value.fields["myNotes"].items;
            && (r.Ok? <==> forall i :: 0 <= i < |items| ==> convert(items[i], NoteDatetimeFields).Ok?)
            && (r.Ok? ==> && r.value.Arr?
                          && |r.value.items| == |items|
                          && forall i :: 0 <= i < |items| ==> convert(items[i], NoteDatetimeFields) == Ok(r.value.items[i])))
  {
    var payload :- AccountResourceGet(a, NotesResource(detailedInfo));
    NormalizedListOrEmpty(payload, "myNotes", n => convert(n, NoteDatetimeFields))
  }

  /** `portfolios`: the value under `myPortfolios`, unnormalised, or the empty list. */
  function Portfolios(a: Account): (r: Result<Value, Error>)
    ensures var f := a.connection("accounts/" + a.accountId + "/" + "portfolios", "v1", None);
      && (f.Err? ==> r == f)
      && (f.Ok? && f.value.Obj? && ErrorsKey in f.value.fields ==> r == Err(ExecutionFailure))
      && (Clean(f) && "myPortfolios" !in f.value.fields ==> r == Ok(Arr([])))
      && (Clean(f) && "myPortfolios" in f.value.fields ==> r == Ok(f.value.fields["myPortfolios"]))
  {
    var payload :- AccountResourceGet(a, "portfolios");
    var present :- In("myPortfolios", payload);
    if present then GetItem(payload, "myPortfolios") else Ok(Arr([]))
  }

  /** Detailed notes of an account are requested from `accounts/<id>/detailednotes`, plain notes from `accounts/<id>/notes`. */
  lemma NotesPaths(accountId: string)
    ensures ResourcePath(accountId, NotesResource(true)) == "accounts/" + accountId + "/" + "detailednotes"
    ensures ResourcePath(accountId, NotesResource(false)) == "accounts/" + accountId + "/" + "notes"
  {
  }
}
