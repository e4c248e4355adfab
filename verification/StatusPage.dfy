/** The status rows of the index page: the query helper (Web/Utils/DataSource.go), the loop
    that overlays markers and logged rows (Web/Utils/PageHandler.go), and what the page
    shows in the end. */
module StatusPage {
  import opened Wrappers
  import opened StatusJson
  import PowerState
  import Server
  import opened Commands

  // ---------- ExecQuery ----------

  datatype RowsEnd = Eof | RowsError(msg: string)

  /** What the database answers: a failure, or rows of as many values as there are columns,
      and how fetching them ended. */
  datatype DbAnswer =
    | PrepareError(msg: string)
    | QueryError(msg: string)
    | Rows(columns: seq<string>, rows: seq<seq<string>>, end: RowsEnd)
  {
    predicate Wf() {
      Rows? ==> forall i :: 0 <= i < |rows| ==> |rows[i]| == |columns|
    }

    predicate Succeeds() {
      Rows? && end.Eof?
    }
  }

  /** The row as a map after its first n values; a later column of the same name wins. */
  function RecordMap(columns: seq<string>, values: seq<string>, n: nat): map<string, string>
    requires n <= |values| == |columns|
  {
    if n == 0 then map[] else RecordMap(columns, values, n - 1)[columns[n - 1] := values[n - 1]]
  }

  lemma {:induction false} RecordMapHolds(columns: seq<string>, values: seq<string>, n: nat, i: nat)
    requires i < n <= |values| == |columns|
    requires forall j :: i < j < n ==> columns[j] != columns[i]
    ensures columns[i] in RecordMap(columns, values, n) && RecordMap(columns, values, n)[columns[i]] == values[i]
  {
    if i < n - 1 {
      RecordMapHolds(columns, values, n - 1, i);
    }
  }

  /** A slice of maps, nil when nothing was ever appended. */
  type Records = Option<seq<map<string, string>>>

  method Record(columns: seq<string>, values: seq<string>) returns (rec: map<string, string>)
    requires |values| == |columns|
    ensures rec == RecordMap(columns, values, |values|)
  {
    rec := map[];
    for i := 0 to |values|
      invariant rec == RecordMap(columns, values, i)
    {
      rec := rec[columns[i] := values[i]];
    }
  }

  /** ExecQuery: a result with no error is nil exactly when there were no rows. */
  method ExecQuery(answer: DbAnswer) returns (records: Records, err: Option<string>)
    requires answer.Wf()
    ensures err.None? <==> answer.Succeeds()
    ensures err.Some? ==> records == None
    ensures err.None? ==> (records == None <==> answer.rows == [])
    ensures err.None? && records.Some? ==>
              && |records.value| == |answer.rows|
              && forall i :: 0 <= i < |answer.rows| ==>
                   records.value[i] == RecordMap(answer.columns, answer.rows[i], |answer.columns|)
  {
    if answer.PrepareError? {
      return None, Some(answer.msg);
    }
    if answer.QueryError? {
      return None, Some(answer.msg);
    }
    records := None;
    for i := 0 to |answer.rows|
      invariant records == None <==> i == 0
      invariant records.Some? ==>
        && |records.value| == i
        && forall j :: 0 <= j < i ==>
             records.value[j] == RecordMap(answer.columns, answer.rows[j], |answer.columns|)
    {
      var rec := Record(answer.columns, answer.rows[i]);
      records := Some((if records.Some? then records.value else []) + [rec]);
    }
    if answer.end != Eof {
      return None, Some(answer.end.msg);
    }
    err := None;
  }

  // ---------- The overlay ----------

  /** Reading a missing key of a Go map gives the empty string. */
  function Lookup(m: map<string, string>, key: string): string {
    if key in m then m[key] else ""
  }

  /** The first row of a successful, nonempty answer. */
  function FirstRow(answer: DbAnswer): Option<map<string, string>>
    requires answer.Wf()
  {
    if answer.Succeeds() && answer.rows != []
    then Some(RecordMap(answer.columns, answer.rows[0], |answer.columns|))
    else None
  }

  /** What a row must be after its turn, said field by field. */
  predicate Overlaid(before: AksStatusRecord, after: AksStatusRecord, cache: map<string, string>, answer: DbAnswer, viewer: string)
    requires answer.Wf()
  {
    && after.resourceGroup == before.resourceGroup
    && after.clusterName == before.clusterName
    && after.status == (if before.clusterName in cache then cache[before.clusterName] else before.status)
    && after.user == (if before.clusterName in cache then viewer
                      else if FirstRow(answer).Some? then Lookup(FirstRow(answer).value, "USERNAME") else before.user)
    && after.timestamp == (if before.clusterName in cache then ""
                           else if FirstRow(answer).Some? then Lookup(FirstRow(answer).value, "AS_OF_DATE")
                           else before.timestamp)
  }

  /** The overlay loop, over the decoded rows in place. `caches(i)` is the marker cache when
      row i looks in it (other goroutines change it meanwhile), `db(i)` the answer to its query. */
  method OverlayRows(statusRecords: array<AksStatusRecord>, caches: nat -> map<string, string>,
                     db: nat -> DbAnswer, viewer: string)
    requires forall i :: 0 <= i < statusRecords.Length ==> db(i).Wf()
    modifies statusRecords
    ensures forall i :: 0 <= i < statusRecords.Length ==>
              Overlaid(old(statusRecords[i]), statusRecords[i], caches(i), db(i), viewer)
  {
    for i := 0 to statusRecords.Length
      invariant forall j :: 0 <= j < i ==> Overlaid(old(statusRecords[j]), statusRecords[j], caches(j), db(j), viewer)
      invariant forall j :: i <= j < statusRecords.Length ==> statusRecords[j] == old(statusRecords[j])
    {
      var record := statusRecords[i];
      var data, e := ExecQuery(db(i));
      var cache := caches(i);
      if record.clusterName in cache {
        statusRecords[i] := statusRecords[i].(status := cache[record.clusterName]);
        statusRecords[i] := statusRecords[i].(user := viewer);
        statusRecords[i] := statusRecords[i].(timestamp := "");
      } else if data != None {
        statusRecords[i] := statusRecords[i].(user := Lookup(data.value[0], "USERNAME"));
        statusRecords[i] := statusRecords[i].(timestamp := Lookup(data.value[0], "AS_OF_DATE"));
      }
    }
  }

  // ---------- From the cloud to the page ----------

  /** The value of a column in the first row, if the query gave one: the last of that name. */
  function LastBy(answer: DbAnswer, column: string): string
    requires answer.Wf()
  {
    if answer.Rows? && answer.end.Eof? && answer.rows != [] then LastValue(answer.columns, answer.rows[0], column, |answer.columns|)
    else ""
  }

  function LastValue(columns: seq<string>, values: seq<string>, column: string, n: nat): string
    requires n <= |values| == |columns|
  {
    if n == 0 then "" else if columns[n - 1] == column then values[n - 1] else LastValue(columns, values, column, n - 1)
  }

  lemma {:induction false} LookupIsLast(columns: seq<string>, values: seq<string>, column: string, n: nat)
    requires n <= |values| == |columns|
    ensures Lookup(RecordMap(columns, values, n), column) == LastValue(columns, values, column, n)
  {
    if n > 0 {
      LookupIsLast(columns, values, column, n - 1);
    }
  }

  /** The overlay shows exactly that. */
  lemma OverlaidInWords(before: AksStatusRecord, after: AksStatusRecord, cache: map<string, string>, answer: DbAnswer, viewer: string)
    requires answer.Wf() && Overlaid(before, after, cache, answer, viewer) && before.user == before.timestamp == ""
    ensures after.resourceGroup == before.resourceGroup && after.clusterName == before.clusterName
    ensures after.status == if before.clusterName in cache then cache[before.clusterName] else before.status
    ensures after.user == if before.clusterName in cache then viewer else LastBy(answer, "USERNAME")
    ensures after.timestamp == if before.clusterName in cache then "" else LastBy(answer, "AS_OF_DATE")
  {
    if FirstRow(answer).Some? {
      LookupIsLast(answer.columns, answer.rows[0], "USERNAME", |answer.columns|);
      LookupIsLast(answer.columns, answer.rows[0], "AS_OF_DATE", |answer.columns|);
    }
  }

  /** What the web handler decodes from the reply to its aks-status request. */
  function DecodedRows(table: seq<ValidCommand>, req: Server.Request): Option<seq<AksStatusRecord>> {
    Unmarshal(Server.Reply(Server.Dispatch(table, req)).cmdResult)
  }

  /** The Run of a request that resolved to an aks-status. */
  function StatusRun(
    table: seq<ValidCommand>, req: Server.Request, v: seq<PowerState.Entry>, oracle: nat -> PowerState.Outcome): PowerState.Progress
    requires Server.Resolves(table, req) && Server.Resolved(table, req).AksStatusCommand?
  {
    PowerState.Run(v, PowerState.Status(Server.Resolved(table, req).statusCluster), oracle)
  }

  /** The request is an aks-status whose Run the server made over entries v, without an error. */
  predicate StatusSucceeded(
    table: seq<ValidCommand>, req: Server.Request, v: seq<PowerState.Entry>, oracle: nat -> PowerState.Outcome)
  {
    && Server.Resolves(table, req)
    && Server.Resolved(table, req).AksStatusCommand?
    && req.runError == None
    && StatusRun(table, req, v, oracle).error == None
    && req.run.cmdResult == StatusText(PowerState.Reported(StatusRun(table, req, v, oracle).done))
  }

  /** The rows decoded from a successful aks-status: one for each matching entry, in
      configuration order, as the cloud answered it. */
  lemma RowsShowTheCloud(
    table: seq<ValidCommand>, req: Server.Request, v: seq<PowerState.Entry>, oracle: nat -> PowerState.Outcome)
    requires StatusSucceeded(table, req, v, oracle)
    requires AllShown(PowerState.Reported(StatusRun(table, req, v, oracle).done))
    ensures DecodedRows(table, req) == Some(RowsOf(PowerState.Reported(StatusRun(table, req, v, oracle).done)))
    ensures var hits := PowerState.MatchIndices(v, PowerState.Status(Server.Resolved(table, req).statusCluster), |v|);
            && |StatusRun(table, req, v, oracle).done| == |hits|
            && forall j :: 0 <= j < |hits| ==>
                 && hits[j] < |v| && oracle(hits[j]).Success?
                 && StatusRun(table, req, v, oracle).done[j] == PowerState.Refresh(v[hits[j]], oracle(hits[j]).info)
  {
    var cluster := Server.Resolved(table, req).statusCluster;
    var p := StatusRun(table, req, v, oracle);
    var hits := PowerState.MatchIndices(v, PowerState.Status(cluster), |v|);
    assert Server.Reply(Server.Dispatch(table, req)).cmdResult == ReplyText(PowerState.Reported(p.done));
    WebDecodesReply(PowerState.Reported(p.done));
    PowerState.StatusReportsRefreshed(v, cluster, oracle);
    forall j: nat | j < |hits|
      ensures hits[j] < |v| && oracle(hits[j]).Success?
      ensures p.done[j] == PowerState.Refresh(v[hits[j]], oracle(hits[j]).info)
    {
      PowerState.ReportedRefreshed(v, cluster, oracle, j);
    }
  }

  /** From the cloud to the page, through the status run, the server's reply, JSON and the
      overlay: one row for each matching entry, in configuration order, each naming its
      cluster and showing that cluster's marker if there is one, and otherwise what the cloud
      answered. */
  lemma PageShowsTheCloud(
    table: seq<ValidCommand>, req: Server.Request, v: seq<PowerState.Entry>, oracle: nat -> PowerState.Outcome,
    after: seq<AksStatusRecord>, caches: nat -> map<string, string>, db: nat -> DbAnswer, viewer: string)
    requires StatusSucceeded(table, req, v, oracle)
    requires AllShown(PowerState.Reported(StatusRun(table, req, v, oracle).done))
    requires forall j :: 0 <= j ==> db(j).Wf()
    requires DecodedRows(table, req).Some? ==>
               && |after| == |DecodedRows(table, req).value|
               && forall j :: 0 <= j < |after| ==>
                    Overlaid(DecodedRows(table, req).value[j], after[j], caches(j), db(j), viewer)
    ensures DecodedRows(table, req).Some?
    ensures var hits := PowerState.MatchIndices(v, PowerState.Status(Server.Resolved(table, req).statusCluster), |v|);
            && |after| == |hits|
            && forall j :: 0 <= j < |hits| ==>
                 && hits[j] < |v|
                 && oracle(hits[j]).Success?
                 && after[j].clusterName == v[hits[j]].clusterName
                 && after[j].resourceGroup == v[hits[j]].resourceGroup
                 && after[j].status == (if v[hits[j]].clusterName in caches(j)
                                        then caches(j)[v[hits[j]].clusterName] else oracle(hits[j]).info.powerCode)
                 && after[j].user == (if v[hits[j]].clusterName in caches(j) then viewer else LastBy(db(j), "USERNAME"))
                 && after[j].timestamp == (if v[hits[j]].clusterName in caches(j) then "" else LastBy(db(j), "AS_OF_DATE"))
  {
    RowsShowTheCloud(table, req, v, oracle);
    forall j | 0 <= j < |after|
      ensures after[j].user == if DecodedRows(table, req).value[j].clusterName in caches(j) then viewer else LastBy(db(j), "USERNAME")
      ensures after[j].timestamp == if DecodedRows(table, req).value[j].clusterName in caches(j) then "" else LastBy(db(j), "AS_OF_DATE")
    {
      OverlaidInWords(DecodedRows(table, req).value[j], after[j], caches(j), db(j), viewer);
    }
  }
}
