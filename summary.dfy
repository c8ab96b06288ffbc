/** The summary normaliser (`flatten_summary`): one fixed-shape row per raw
    transaction record, fields picked by alias chains with Python's `or`. */
module Summary {
  import opened Json

  /** Why `flatten_summary` raises: `tx.get` on a record that is not a dict
      (AttributeError), or `len` of a transfer value that has no length, a
      truthy number or boolean (TypeError). */
  datatype SummaryError = NotADict | NoLength(field: string)

  datatype Result<T> = Ok(value: T) | Err(error: SummaryError)

  /** One summary row. `timeUtc` and `error` are Python strings or None. */
  datatype Row = Row(
    signature: Json,
    slot: Json,
    timeUtc: Option<string>,
    timestamp: Json,
    feeLamports: Json,
    feeSol: Option<real>,
    feePayer: Json,
    nativeTransfers: nat,
    tokenTransfers: nat,
    error: Option<string>,
    description: Json)

  /** `epoch_to_iso(ts)`. None gives None; any other timestamp is handed to
      `convert`, which stands for the `datetime` formatting (None when it
      raises). */
  function EpochToIso(ts: Json, convert: Json -> Option<string>): Option<string> {
    if ts == JNull then None else convert(ts)
  }

  /** Python's `len` on the JSON values that have one. */
  function Len(v: Json): Option<nat> {
    match v
    case JArr(items) => Some(|items|)
    case JStr(s) => Some(|s|)
    case JObj(fields) => Some(|fields|)
    case _ => None
  }

  /** `len(v or [])`: 0 for a falsy value, the length of a list (or string
      or dict), and no result (TypeError) for a truthy number or boolean. */
  function TransferCount(v: Json): (r: Option<nat>)
    ensures !Truthy(v) ==> r == Some(0)
    ensures v.JArr? ==> r == Some(|v.items|)
    ensures r.None? <==> Truthy(v) && (v.JBool? || v.JInt? || v.JReal?)
  {
    Len(Or(v, JArr([])))
  }

  /** `fee_lam / 1e9 if isinstance(fee_lam, (int, float)) else None`; a
      Python bool is an int. The division is exact here. */
  function FeeSol(feeLamports: Json): Option<real> {
    match feeLamports
    case JInt(i) => Some(i as real / 1000000000.0)
    case JReal(r) => Some(r / 1000000000.0)
    case JBool(b) => Some(if b then 1.0 / 1000000000.0 else 0.0)
    case _ => None
  }

  /** The row for one record, or the exception building it raises. */
  function SummarizeRecord(tx: Json, convert: Json -> Option<string>, dumps: Json -> string): (r: Result<Row>)
    ensures r.Ok? <==> && tx.JObj?
                       && TransferCount(Lookup(tx.fields, "nativeTransfers")).Some?
                       && TransferCount(Lookup(tx.fields, "tokenTransfers")).Some?
    ensures !tx.JObj? ==> r == Err(NotADict)
    ensures tx.JObj? && TransferCount(Lookup(tx.fields, "nativeTransfers")).None? ==> r == Err(NoLength("nativeTransfers"))
    ensures (&& tx.JObj?
             && TransferCount(Lookup(tx.fields, "nativeTransfers")).Some?
             && TransferCount(Lookup(tx.fields, "tokenTransfers")).None?)
            ==> r == Err(NoLength("tokenTransfers"))
  {
    if !tx.JObj? then Err(NotADict)
    else
      var f := tx.fields;
      var sig := Or(Or(Lookup(f, "signature"), Lookup(f, "txHash")), Lookup(f, "transactionHash"));
      var slot := Lookup(f, "slot");
      var ts := Or(Or(Lookup(f, "timestamp"), Lookup(f, "blockTime")), Lookup(f, "block_time"));
      var feeLam := Or(Lookup(f, "fee"), JInt(0));
      var feePayer := Lookup(f, "feePayer");
      var native := TransferCount(Lookup(f, "nativeTransfers"));
      var token := TransferCount(Lookup(f, "tokenTransfers"));
      var err := Lookup(f, "transactionError");
      var description := Or(Or(Lookup(f, "description"), Lookup(f, "type")), JStr(""));
      if native.None? then Err(NoLength("nativeTransfers"))
      else if token.None? then Err(NoLength("tokenTransfers"))
      else
        Ok(Row(sig, slot, EpochToIso(ts, convert), ts, feeLam, FeeSol(feeLam), feePayer,
               native.value, token.value, if Truthy(err) then Some(dumps(err)) else None, description))
  }

  /** A fallible per-record step applied to every record in order: one
      result per record, or the error of the first record it fails on. */
  function MapRecords(txs: seq<Json>, step: Json -> Result<Row>): (r: Result<seq<Row>>)
    ensures r.Ok? <==> forall i :: 0 <= i < |txs| ==> step(txs[i]).Ok?
    ensures r.Ok? ==> |r.value| == |txs|
    ensures r.Ok? ==> forall i :: 0 <= i < |txs| ==> step(txs[i]) == Ok(r.value[i])
    ensures forall i :: 0 <= i < |txs| && step(txs[i]).Err? && (forall j :: 0 <= j < i ==> step(txs[j]).Ok?)
                    ==> r == Err(step(txs[i]).error)
  {
    if txs == [] then Ok([])
    else
      match step(txs[0])
      case Err(e) => Err(e)
      case Ok(row) =>
        var rest := MapRecords(txs[1..], step);
        assert forall i :: 1 <= i < |txs| ==> txs[i] == txs[1..][i - 1];
        match rest
        case Err(e) => Err(e)
        case Ok(rows) => Ok([row] + rows)
  }

  /** The rows `flatten_summary` builds: one per record, in order, or the
      error of the first record that cannot be summarised. */
  function SummaryRows(txs: seq<Json>, convert: Json -> Option<string>, dumps: Json -> string): Result<seq<Row>> {
    MapRecords(txs, tx => SummarizeRecord(tx, convert, dumps))
  }

  /** The `for tx in transactions` loop of `flatten_summary` for a given
      per-record step: rows are appended in order, and the first record the
      step fails on ends the loop with that failure. */
  method MapRecordsLoop(transactions: seq<Json>, step: Json -> Result<Row>) returns (r: Result<seq<Row>>)
    ensures r == MapRecords(transactions, step)
  {
    var rows: seq<Row> := [];
    for i := 0 to |transactions|
      invariant |rows| == i
      invariant forall j :: 0 <= j < i ==> step(transactions[j]) == Ok(rows[j])
    {
      var row := step(transactions[i]);
      if row.Err? {
        return Err(row.error);
      }
      rows := rows + [row.value];
    }
    ghost var spec := MapRecords(transactions, step);
    assert spec.Ok? && spec.value == rows;
    return Ok(rows);
  }

  /** `flatten_summary(transactions)`: the loop run with the per-record
      summary (the DataFrame is the resulting sequence of rows). */
  method FlattenSummary(transactions: seq<Json>, convert: Json -> Option<string>, dumps: Json -> string)
    returns (r: Result<seq<Row>>)
    ensures r == SummaryRows(transactions, convert, dumps)
  {
    r := MapRecordsLoop(transactions, tx => SummarizeRecord(tx, convert, dumps));
  }

  /** Signature: `signature or txHash or transactionHash`. */
  lemma SignatureField(tx: Json, convert: Json -> Option<string>, dumps: Json -> string)
    requires SummarizeRecord(tx, convert, dumps).Ok?
    ensures var row := SummarizeRecord(tx, convert, dumps).value; var f := tx.fields;
      && (Truthy(Lookup(f, "signature")) ==> row.signature == Lookup(f, "signature"))
      && (!Truthy(Lookup(f, "signature")) && Truthy(Lookup(f, "txHash")) ==> row.signature == Lookup(f, "txHash"))
      && (!Truthy(Lookup(f, "signature")) && !Truthy(Lookup(f, "txHash")) ==> row.signature == Lookup(f, "transactionHash"))
  {
  }

  /** Timestamp: `timestamp or blockTime or block_time`. */
  lemma TimestampField(tx: Json, convert: Json -> Option<string>, dumps: Json -> string)
    requires SummarizeRecord(tx, convert, dumps).Ok?
    ensures var row := SummarizeRecord(tx, convert, dumps).value; var f := tx.fields;
      && (Truthy(Lookup(f, "timestamp")) ==> row.timestamp == Lookup(f, "timestamp"))
      && (!Truthy(Lookup(f, "timestamp")) && Truthy(Lookup(f, "blockTime")) ==> row.timestamp == Lookup(f, "blockTime"))
      && (!Truthy(Lookup(f, "timestamp")) && !Truthy(Lookup(f, "blockTime")) ==> row.timestamp == Lookup(f, "block_time"))
  {
  }

  /** `time_utc` is `epoch_to_iso(ts)`: None exactly when there is no
      timestamp to convert, the formatter's result otherwise. */
  lemma TimeUtcField(tx: Json, convert: Json -> Option<string>, dumps: Json -> string)
    requires SummarizeRecord(tx, convert, dumps).Ok?
    ensures var row := SummarizeRecord(tx, convert, dumps).value;
      && (row.timestamp == JNull ==> row.timeUtc == None)
      && (row.timestamp != JNull ==> row.timeUtc == convert(row.timestamp))
  {
  }

  /** Fee: `fee or 0`, and the SOL amount exists exactly for a number. */
  lemma FeeField(tx: Json, convert: Json -> Option<string>, dumps: Json -> string)
    requires SummarizeRecord(tx, convert, dumps).Ok?
    ensures var row := SummarizeRecord(tx, convert, dumps).value; var f := tx.fields;
      && (Truthy(Lookup(f, "fee")) ==> row.feeLamports == Lookup(f, "fee"))
      && (!Truthy(Lookup(f, "fee")) ==> row.feeLamports == JInt(0) && row.feeSol == Some(0.0))
      && (row.feeSol.Some? <==> row.feeLamports.JInt? || row.feeLamports.JReal? || row.feeLamports.JBool?)
  {
  }

  /** Transfer counts: 0 for a falsy value, the length of a list. */
  lemma TransferFields(tx: Json, convert: Json -> Option<string>, dumps: Json -> string)
    requires SummarizeRecord(tx, convert, dumps).Ok?
    ensures var row := SummarizeRecord(tx, convert, dumps).value; var f := tx.fields;
      && (!Truthy(Lookup(f, "nativeTransfers")) ==> row.nativeTransfers == 0)
      && (Lookup(f, "nativeTransfers").JArr? ==> row.nativeTransfers == |Lookup(f, "nativeTransfers").items|)
      && (!Truthy(Lookup(f, "tokenTransfers")) ==> row.tokenTransfers == 0)
      && (Lookup(f, "tokenTransfers").JArr? ==> row.tokenTransfers == |Lookup(f, "tokenTransfers").items|)
  {
  }

  /** Error: the serialised `transactionError` exactly when it is truthy. */
  lemma ErrorField(tx: Json, convert: Json -> Option<string>, dumps: Json -> string)
    requires SummarizeRecord(tx, convert, dumps).Ok?
    ensures var row := SummarizeRecord(tx, convert, dumps).value; var f := tx.fields;
      && (row.error.Some? <==> Truthy(Lookup(f, "transactionError")))
      && (row.error.Some? ==> row.error.value == dumps(Lookup(f, "transactionError")))
  {
  }

  /** Description: `description or type or ""`; slot and fee payer are
      copied as they are. */
  lemma DescriptionField(tx: Json, convert: Json -> Option<string>, dumps: Json -> string)
    requires SummarizeRecord(tx, convert, dumps).Ok?
    ensures var row := SummarizeRecord(tx, convert, dumps).value; var f := tx.fields;
      && (Truthy(Lookup(f, "description")) ==> row.description == Lookup(f, "description"))
      && (!Truthy(Lookup(f, "description")) && Truthy(Lookup(f, "type")) ==> row.description == Lookup(f, "type"))
      && (!Truthy(Lookup(f, "description")) && !Truthy(Lookup(f, "type")) ==> row.description == JStr(""))
      && row.slot == Lookup(f, "slot")
      && row.feePayer == Lookup(f, "feePayer")
  {
  }

  /** A record with none of the recognised fields gives the default row. */
  lemma EmptyRecordRow(convert: Json -> Option<string>, dumps: Json -> string)
    ensures SummarizeRecord(JObj([]), convert, dumps)
         == Ok(Row(JNull, JNull, None, JNull, JInt(0), Some(0.0), JNull, 0, 0, None, JStr("")))
  {
  }

  /** One SOL is 10^9 lamports. */
  lemma FeeConversion()
    ensures FeeSol(JInt(1000000000)) == Some(1.0)
    ensures FeeSol(JInt(0)) == Some(0.0)
  {
  }
}
