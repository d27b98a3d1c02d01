/**
 * The `Loans` facade: the loan listing, checked for an error block and then normalised
 * by parsing its `asOfDate` and the seven date fields of every listed loan.
 */
module LoansApi {
  import opened Wrappers
  import opened Json
  import opened Errors
  import opened Builtins
  import opened Resource
  import Http

  const ConvertableDatetimeFields: seq<string> :=
    ["ilsExpD", "earliestCrLine", "acceptD", "expD", "listD", "creditPullD", "reviewStatusD"]

  const ListedLoansPath := "loans/listing"
  const MissingConnectionMessage := "connection must be a non-None Connection object"

  /** Every listed field is present in `m` and its value parses. */
  ghost predicate AllParse(parse: Parser, m: map<string, Value>, fields: seq<string>)
  {
    forall i :: 0 <= i < |fields| ==> fields[i] in m && parse(m[fields[i]]).Ok?
  }

  /** The loop of `_convert_datetimes`: for each field in turn, read it, parse it and store the instant. */
  function ConvertFields(parse: Parser, record: Value, fields: seq<string>): (r: Result<Value, Error>)
    ensures |fields| > 0 && !record.Obj? ==> r == Err(TypeError)
    ensures |fields| > 0 && r.Ok? ==>
      record.Obj? && r.value.Obj? && r.value.fields.Keys == record.fields.Keys
    ensures r.Ok? ==> forall i :: 0 <= i < |fields| ==> fields[i] in record.fields
    decreases |fields|
  {
    if |fields| == 0 then Ok(record)
    else
      var raw :- GetItem(record, fields[0]);
      var instant :- parse(raw);
      match SetItem(record, fields[0], Time(instant))
      case Ok(updated) => ConvertFields(parse, updated, fields[1..])
      case Err(e) => Err(e)
  }

  /**
   * For distinct fields the loop succeeds exactly when the record is an object holding
   * every field with a parseable value; it then replaces exactly those fields by their
   * parsed instants. A missing field is a `KeyError` when every value parses.
   */
  lemma {:induction false} ConvertFieldsSpec(parse: Parser, record: Value, fields: seq<string>)
    requires Distinct(fields)
    ensures var r := ConvertFields(parse, record, fields);
      && (|fields| == 0 ==> r == Ok(record))
      && (|fields| > 0 ==> (r.Ok? <==> record.Obj? && AllParse(parse, record.fields, fields)))
      && (|fields| > 0 && r.Ok? ==>
            && ChangesOnly(record, r.value, fields)
            && forall i :: 0 <= i < |fields| ==>
                 r.value.fields[fields[i]] == Time(parse(record.fields[fields[i]]).value))
      && (|fields| > 0 && !record.Obj? ==> r == Err(TypeError))
    decreases |fields|
  {
    if |fields| > 0 && record.Obj? {
      var f := fields[0];
      var m := record.fields;
      var rest := fields[1..];
      assert Distinct(rest);
      assert forall i :: 0 <= i < |rest| ==> rest[i] != f;
      if f in m && parse(m[f]).Ok? {
        var t := parse(m[f]).value;
        var m' := m[f := Time(t)];
        ConvertFieldsSpec(parse, Obj(m'), rest);
        assert ConvertFields(parse, record, fields) == ConvertFields(parse, Obj(m'), rest);
        assert forall i :: 0 <= i < |rest| && rest[i] in m ==> m'[rest[i]] == m[rest[i]];
        assert AllParse(parse, m, fields) <==> AllParse(parse, m', rest) by {
          if AllParse(parse, m', rest) {
            forall i | 0 <= i < |fields|
              ensures fields[i] in m && parse(m[fields[i]]).Ok?
            {
              if i > 0 { assert fields[i] == rest[i - 1]; }
            }
          }
        }
        var r := ConvertFields(parse, Obj(m'), rest);
        if r.Ok? && |rest| > 0 {
          forall i | 0 <= i < |fields|
            ensures r.value.fields[fields[i]] == Time(parse(m[fields[i]]).value)
          {
            if i > 0 { assert fields[i] == rest[i - 1]; }
          }
        }
      }
    }
  }

  /** When every value parses, the loop over an object can fail only on a missing field, as a `KeyError` naming it. */
  lemma {:induction false} MissingFieldIsKeyError(parse: Parser, rec: Value, fields: seq<string>)
    ensures var r := ConvertFields(parse, rec, fields);
      rec.Obj? && r.Err? && (forall x :: parse(x).Ok?) ==>
        exists i :: 0 <= i < |fields| && fields[i] !in rec.fields && r.error == KeyError(Str(fields[i]))
    decreases |fields|
  {
    if |fields| > 0 && rec.Obj? && (forall x :: parse(x).Ok?) {
      var record := rec.fields;
      var f := fields[0];
      if f in record {
        var m' := record[f := Time(parse(record[f]).value)];
        MissingFieldIsKeyError(parse, Obj(m'), fields[1..]);
        var r := ConvertFields(parse, Obj(m'), fields[1..]);
        assert ConvertFields(parse, Obj(record), fields) == r;
        if r.Err? {
          var i :| 0 <= i < |fields[1..]| && fields[1..][i] !in m' && r.error == KeyError(Str(fields[1..][i]));
          assert fields[i + 1] == fields[1..][i];
        }
      } else {
        assert ConvertFields(parse, Obj(record), fields) == Err(KeyError(Str(f)));
      }
    }
  }

  /** The seven listed-loan date fields are distinct. */
  lemma ConvertableFieldsDistinct()
    ensures Distinct(ConvertableDatetimeFields)
  {
    var fs := ConvertableDatetimeFields;
    forall i, j | 0 <= i < j < |fs|
      ensures fs[i] != fs[j]
    {
      assert fs[i][|fs[i]| - 1] != fs[j][|fs[j]| - 1] || |fs[i]| != |fs[j]| || fs[i][0] != fs[j][0];
    }
  }

  /**
   * `_convert_datetimes`: every one of the seven date fields must be present and is
   * replaced by its parsed instant; every other key of the loan keeps its value.
   */
  function ConvertDatetimes(parse: Parser, loan: Value): (r: Result<Value, Error>)
    ensures r.Ok? <==> loan.Obj? && AllParse(parse, loan.fields, ConvertableDatetimeFields)
    ensures r.Ok? ==>
      && ChangesOnly(loan, r.value, ConvertableDatetimeFields)
      && forall i :: 0 <= i < |ConvertableDatetimeFields| ==>
           r.value.fields[ConvertableDatetimeFields[i]] == Time(parse(loan.fields[ConvertableDatetimeFields[i]]).value)
    ensures loan.Obj? && r.Err? && (forall x :: parse(x).Ok?) ==>
      exists i :: 0 <= i < |ConvertableDatetimeFields| && ConvertableDatetimeFields[i] !in loan.fields
                  && r.error == KeyError(Str(ConvertableDatetimeFields[i]))
    ensures !loan.Obj? ==> r == Err(TypeError)
  {
    ConvertableFieldsDistinct();
    ConvertFieldsSpec(parse, loan, ConvertableDatetimeFields);
    MissingFieldIsKeyError(parse, loan, ConvertableDatetimeFields);
    ConvertFields(parse, loan, ConvertableDatetimeFields)
  }

  /**
   * `_normalize_loan_format`: `asOfDate` is parsed, the list under `loans` is rebuilt
   * loan by loan in order, and every other key keeps its value.
   */
  function NormalizeLoanFormat(parse: Parser, payload: Value): (r: Result<Value, Error>)
    ensures r.Ok? ==>
      && payload.Obj?
      && "asOfDate" in payload.fields
      && "loans" in payload.fields
      && ChangesOnly(payload, r.value, ["asOfDate", "loans"])
      && parse(payload.fields["asOfDate"]).Ok?
      && r.value.fields["asOfDate"] == Time(parse(payload.fields["asOfDate"]).value)
      && Iterate(payload.fields["loans"]).Ok?
      && r.value.fields["loans"].Arr?
      && |r.value.fields["loans"].items| == |Iterate(payload.fields["loans"]).value|
      && forall i :: 0 <= i < |r.value.fields["loans"].items| ==>
           ConvertDatetimes(parse, Iterate(payload.fields["loans"]).value[i]) == Ok(r.value.fields["loans"].items[i])
    ensures payload.Obj? && "asOfDate" in payload.fields && parse(payload.fields["asOfDate"]).Ok?
            && "loans" in payload.fields && payload.fields["loans"].Arr? ==>
      (r.Ok? <==> forall i :: 0 <= i < |payload.fields["loans"].items| ==>
                    ConvertDatetimes(parse, payload.fields["loans"].items[i]).Ok?)
  {
    var raw :- GetItem(payload, "asOfDate");
    var asOf :- parse(raw);
    match SetItem(payload, "asOfDate", Time(asOf))
    case Err(e) => Err(e)
    case Ok(stamped) =>
      var listed :- GetItem(stamped, "loans");
      var loans :- Iterate(listed);
      var converted :- MapEach(loans, loan => ConvertDatetimes(parse, loan));
      SetItem(stamped, "loans", Arr(converted))
  }

  /** A `Loans` facade over a connection. */
  datatype Loans = Loans(connection: Getter)

  /** The constructor: raises `ValueError` exactly when the connection is missing. */
  function New(connection: Option<Getter>): (r: Result<Loans, Error>)
    ensures r.Err? <==> connection.None?
    ensures r.Err? ==> r.error == ValueError(MissingConnectionMessage)
  {
    match connection
    case None => Err(ValueError(MissingConnectionMessage))
    case Some(c) => Ok(Loans(c))
  }

  /**
   * `get_listed_loans`: requests `loans/listing` with the single query parameter
   * `showAll`, rejects a payload carrying an error block before any conversion, and
   * otherwise normalises it.
   */
  function GetListedLoans(l: Loans, parse: Parser, getAllLoans: bool := false): (r: Result<Value, Error>)
    ensures var f := l.connection("loans/listing", "v1", Some(map["showAll" := Bool(getAllLoans)]));
      && (f.Err? ==> r == f)
      && (f.Ok? && f.value.Obj? && "errors" in f.value.fields ==> r == Err(ExecutionFailure))
      && (f.Ok? && f.value.Arr? && Str("errors") in f.value.items ==> r == Err(TypeError))
      && (Clean(f) ==> r == NormalizeLoanFormat(parse, f.value))
  {
    var queryParams := map["showAll" := Bool(getAllLoans)];
    var payload :- l.connection(ListedLoansPath, Http.DefaultApiVersion, Some(queryParams));
    var checked :- CheckForErrors(payload);
    NormalizeLoanFormat(parse, checked)
  }

  /** An error block makes the result independent of the parser: no date is ever converted. */
  lemma ErrorsCheckedFirst(l: Loans, parse1: Parser, parse2: Parser, getAllLoans: bool)
    requires var f := l.connection("loans/listing", "v1", Some(map["showAll" := Bool(getAllLoans)]));
             f.Ok? && f.value.Obj? && "errors" in f.value.fields
    ensures GetListedLoans(l, parse1, getAllLoans) == GetListedLoans(l, parse2, getAllLoans) == Err(ExecutionFailure)
  {
  }

  /**
   * End to end: for a clean listing whose `asOfDate` parses and whose loans all carry
   * parseable values for the seven date fields, every declared date is the parsed
   * original, the list keeps its length and order, and every other field is unchanged.
   */
  lemma ListedLoansEndToEnd(l: Loans, parse: Parser, getAllLoans: bool)
    requires var f := l.connection("loans/listing", "v1", Some(map["showAll" := Bool(getAllLoans)]));
      && Clean(f)
      && "asOfDate" in f.value.fields && parse(f.value.fields["asOfDate"]).Ok?
      && "loans" in f.value.fields && f.value.fields["loans"].Arr?
      && forall i :: 0 <= i < |f.value.fields["loans"].items| ==>
           f.value.fields["loans"].items[i].Obj?
           && AllParse(parse, f.value.fields["loans"].items[i].fields, ConvertableDatetimeFields)
    ensures var f := l.connection("loans/listing", "v1", Some(map["showAll" := Bool(getAllLoans)]));
            var r := GetListedLoans(l, parse, getAllLoans);
            var loans := f.value.fields["loans"].items;
      && r.Ok?
      && r.value.fields["asOfDate"] == Time(parse(f.value.fields["asOfDate"]).value)
      && r.value.fields["loans"].Arr?
      && |r.value.fields["loans"].items| == |loans|
      && forall i :: 0 <= i < |loans| ==>
           && ChangesOnly(loans[i], r.value.fields["loans"].items[i], ConvertableDatetimeFields)
           && forall j :: 0 <= j < |ConvertableDatetimeFields| ==>
                r.value.fields["loans"].items[i].fields[ConvertableDatetimeFields[j]]
                  == Time(parse(loans[i].fields[ConvertableDatetimeFields[j]]).value)
  {
    var f := l.connection("loans/listing", "v1", Some(map["showAll" := Bool(getAllLoans)]));
    var loans := f.value.fields["loans"].items;
    forall i | 0 <= i < |loans|
      ensures ConvertDatetimes(parse, loans[i]).Ok?
    {
    }
  }
}
