/** The audit records and how they are built (Server/Data/Registrar.go). */
module Records {
  import opened Sequences
  import opened Wrappers

  datatype NullString = NullString(str: string, valid: bool)

  function GetNullString(s: string): (r: NullString)
    ensures r.str == s
  {
    if |s| == 0 then NullString("", false) else NullString(s, true)
  }

  type CommandType = int
  const COMMAND: CommandType := 0
  const KUBERNETES: CommandType := 1

  /** Nanoseconds; a missing protobuf timestamp reads as the epoch. */
  type Time = int

  function AsTime(t: Option<Time>): Time {
    if t.Some? then t.value else 0
  }

  datatype CommandResponse = CommandResponse(
    cmdResult: string, cmdError: string,
    execTime: Option<Time>, startTime: Option<Time>, endTime: Option<Time>)

  const EMPTY_RESPONSE := CommandResponse("", "", None, None, None)

  /** A value of the Record interface: its constructor is its dynamic type. */
  datatype Record =
    | AuditRecord(user: NullString, cmd: NullString, opts: NullString, result: NullString,
                  errStr: NullString, start: Time, end: Time, tstp: Time, cmdType: CommandType)
    | KubeStatusRecord(username: NullString, clusterName: NullString, status: NullString,
                       tstp: Time, cmdType: CommandType)
  {
    /** Decided by the dynamic type; the CmdType field is not read. */
    function GetCommandType(): CommandType {
      if AuditRecord? then COMMAND else KUBERNETES
    }

    function SetTimestamp(t: Time): Record {
      match this
      case AuditRecord(u, c, o, r, e, s, f, _, k) => AuditRecord(u, c, o, r, e, s, f, t, k)
      case KubeStatusRecord(u, c, st, _, k) => KubeStatusRecord(u, c, st, t, k)
    }

    /** The record without its Tstp and CmdType fields. */
    function Erase(): Record {
      match this
      case AuditRecord(u, c, o, r, e, s, f, _, _) => AuditRecord(u, c, o, r, e, s, f, 0, COMMAND)
      case KubeStatusRecord(u, c, st, _, _) => KubeStatusRecord(u, c, st, 0, COMMAND)
    }
  }

  /** Stamping changes the Tstp, to the time given, and nothing else. */
  lemma StampOnly(r: Record, t: Time)
    ensures r.SetTimestamp(t).tstp == t && r.SetTimestamp(t).cmdType == r.cmdType
    ensures r.SetTimestamp(t).Erase() == r.Erase()
  {
  }

  /** Records are alike when erased if and only if they agree on every field but Tstp and CmdType. */
  lemma ErasedAlike(r: Record, q: Record)
    ensures r.Erase() == q.Erase() <==>
            || (&& r.AuditRecord? && q.AuditRecord?
                && r.user == q.user && r.cmd == q.cmd && r.opts == q.opts && r.result == q.result
                && r.errStr == q.errStr && r.start == q.start && r.end == q.end)
            || (&& r.KubeStatusRecord? && q.KubeStatusRecord?
                && r.username == q.username && r.clusterName == q.clusterName && r.status == q.status)
  {
  }

  function NewAuditRecord(userId: string, cmdName: string, cmdOpts: seq<string>, response: CommandResponse): Record {
    AuditRecord(GetNullString(userId), GetNullString(cmdName), GetNullString(Join(cmdOpts, " ")),
                GetNullString(response.cmdResult), GetNullString(response.cmdError),
                AsTime(response.startTime), AsTime(response.endTime), 0, COMMAND)
  }

  function NewKubeStatusRecord(clusterName: string, userId: string, status: string, now: Time): Record {
    KubeStatusRecord(GetNullString(userId), GetNullString(clusterName), GetNullString(status), now, KUBERNETES)
  }

  function EraseAll(rs: seq<Record>): (es: seq<Record>)
    ensures |es| == |rs|
    ensures forall i :: 0 <= i < |rs| ==> es[i] == rs[i].Erase()
  {
    seq(|rs|, i requires 0 <= i < |rs| => rs[i].Erase())
  }

  lemma EraseAllConcat(a: seq<Record>, b: seq<Record>)
    ensures EraseAll(a + b) == EraseAll(a) + EraseAll(b)
  {
  }

  /** Erasing a concatenation is concatenating erased pieces. */
  lemma {:induction false} EraseConcat(pieces: seq<seq<Record>>, erased: seq<seq<Record>>)
    requires |erased| == |pieces|
    requires forall i :: 0 <= i < |pieces| ==> EraseAll(pieces[i]) == erased[i]
    ensures EraseAll(Concat(pieces)) == Concat(erased)
  {
    if |pieces| > 0 {
      var n := |pieces| - 1;
      EraseConcat(pieces[..n], erased[..n]);
      EraseAllConcat(Concat(pieces[..n]), pieces[n]);
    }
  }
}
