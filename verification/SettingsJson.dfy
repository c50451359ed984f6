/**
 The settings.json redirect and its rollback journal. The disk is two files, each replaced
 atomically; a run may crash before any write, and any write may fail.
 */
module SettingsJson {
  import opened Bytes

  datatype Json =
    | Null | Bool(b: bool) | Number(n: int) | Str(s: string)
    | Array(items: seq<Json>) | Obj(fields: map<string, Json>)

  /** A file; comments says that only a JSONC reader accepts it. */
  datatype File = Missing | Garbage | Holds(doc: Json, comments: bool)

  datatype Journal = Journal(sidecarURL: string, sessionId: string,
                             baseURLWasSet: bool, priorValue: string, fileExisted: bool)

  datatype Disk = Disk(settings: File, journal: Option<Journal>)

  datatype Error =
    | BadFile | Bedrock | Vertex | Foundry | Comments | PreExistingRedirect
    | EnvNotObject | WriteFailed | NoJournal | NilMapPanic

  datatype Result<+T> = Ok(value: T) | Err(error: Error)

  const KEY := "ANTHROPIC_BASE_URL"

  // ---------- reading ----------

  datatype Status = Status(present: bool, comments: bool, baseURL: string, bedrock: bool, vertex: bool, foundry: bool)

  predicate IsTruthy(v: string) {
    v != "" && v !in ["0", "false", "no", "off", "FALSE", "NO", "OFF", "False", "No", "Off"]
  }

  /** Decoding into a struct with a map of strings: null is tolerated, other types are not. */
  function StringEnv(doc: Json): Result<map<string, string>> {
    match doc
    case Null => Ok(map[])
    case Obj(root) =>
      if "env" !in root || root["env"].Null? then Ok(map[])
      else if root["env"].Obj? && forall k :: k in root["env"].fields ==> IsStringOrNull(root["env"].fields[k]) then
        var env := root["env"].fields;
        Ok(map k | k in env :: if env[k].Str? then env[k].s else "")
      else Err(BadFile)
    case _ => Err(BadFile)
  }

  predicate IsStringOrNull(j: Json) {
    j.Str? || j.Null?
  }

  function Get(env: map<string, string>, k: string): string {
    if k in env then env[k] else ""
  }

  function GetState(f: File): Result<Status> {
    match f
    case Missing => Ok(Status(false, false, "", false, false, false))
    case Garbage => Err(BadFile)
    case Holds(doc, comments) =>
      match StringEnv(doc)
      case Err(e) => Err(e)
      case Ok(env) =>
        Ok(Status(true, comments, Get(env, KEY), IsTruthy(Get(env, "CLAUDE_CODE_USE_BEDROCK")),
                  IsTruthy(Get(env, "CLAUDE_CODE_USE_VERTEX")), IsTruthy(Get(env, "CLAUDE_CODE_USE_FOUNDRY"))))
  }

  /** The reasons Enter refuses, in the order it checks them. */
  function Incompatible(st: Status, url: string): Option<Error> {
    if st.bedrock then Some(Bedrock)
    else if st.vertex then Some(Vertex)
    else if st.foundry then Some(Foundry)
    else if st.comments then Some(Comments)
    else if st.baseURL != "" && st.baseURL != url then Some(PreExistingRedirect)
    else None
  }

  /** Decoding into a map of anything: None is the nil map that a null document leaves. */
  function RootOf(f: File): Result<Option<map<string, Json>>>
    requires f != Missing
  {
    match f
    case Holds(Obj(root), false) => Ok(Some(root))
    case Holds(Null, false) => Ok(None)
    case _ => Err(BadFile)
  }

  function Merged(f: File, url: string): Result<File> {
    var root := if f.Missing? then Ok(None) else RootOf(f);
    match root
    case Err(e) => Err(e)
    case Ok(r) =>
      var m := if r.Some? then r.value else map[];
      if "env" in m && !m["env"].Obj? then Err(EnvNotObject)
      else
        var env := if "env" in m then m["env"].fields else map[];
        Ok(Holds(Obj(m["env" := Obj(env[KEY := Str(url)])]), false))
  }

  /** The file a journal restores; a missing file has nothing to restore. */
  function Restored(f: File, j: Journal): Result<File> {
    if f.Missing? then Ok(f)
    else match RootOf(f)
      case Err(e) => Err(e)
      case Ok(None) => Err(NilMapPanic)
      case Ok(Some(m)) =>
        var env := if "env" in m && m["env"].Obj? then m["env"].fields else map[];
        var env' := if j.baseURLWasSet then env[KEY := Str(j.priorValue)] else env - {KEY};
        Ok(Holds(Obj(m["env" := Obj(env')]), false))
  }

  /** The file with our redirect removed, or None when the redirect is not ours. */
  function Stripped(f: File, url: string): Result<Option<File>> {
    if f.Missing? then Ok(None)
    else match RootOf(f)
      case Err(e) => Err(e)
      case Ok(None) => Ok(None)
      case Ok(Some(m)) =>
        if "env" in m && m["env"].Obj? && KEY in m["env"].fields && m["env"].fields[KEY] == Str(url) then
          Ok(Some(Holds(Obj(m["env" := Obj(m["env"].fields - {KEY})]), false)))
        else Ok(None)
  }

  // ---------- writing: every disk a call passes through ----------

  /** What becomes of one write: it happens, it fails, or the process dies before it. */
  datatype Io = Done | Fails | Dies

  datatype Ended = Returned(error: Option<Error>) | Crashed

  /** The disks after each write that took effect, and how the call ended. */
  datatype Trace = Trace(disks: seq<Disk>, ended: Ended)

  function Last(d: Disk, t: Trace): Disk {
    if t.disks == [] then d else t.disks[|t.disks| - 1]
  }

  function EnterTrace(d: Disk, url: string, session: string, journalIo: Io, settingsIo: Io, cleanupIo: Io): Trace {
    match GetState(d.settings)
    case Err(e) => Trace([], Returned(Some(e)))
    case Ok(st) =>
      match Incompatible(st, url)
      case Some(e) => Trace([], Returned(Some(e)))
      case None =>
        match Merged(d.settings, url)
        case Err(e) => Trace([], Returned(Some(e)))
        case Ok(merged) =>
          var d1 := d.(journal := Some(Journal(url, session, st.baseURL != "", st.baseURL, st.present)));
          match journalIo
          case Dies => Trace([], Crashed)
          case Fails => Trace([], Returned(Some(WriteFailed)))
          case Done =>
            match settingsIo
            case Dies => Trace([d1], Crashed)
            case Done => Trace([d1, d1.(settings := merged)], Returned(None))
            case Fails =>
              match cleanupIo
              case Dies => Trace([d1], Crashed)
              case Fails => Trace([d1], Returned(Some(WriteFailed)))
              case Done => Trace([d1, d1.(journal := None)], Returned(Some(WriteFailed)))
  }

  function DeleteTrace(d: Disk, io: Io): Trace {
    match io
    case Dies => Trace([], Crashed)
    case Fails => Trace([], Returned(Some(WriteFailed)))
    case Done => Trace([d.(journal := None)], Returned(None))
  }

  function ExitTrace(d: Disk, restoreIo: Io, deleteIo: Io): Trace {
    if d.journal.None? then Trace([], Returned(Some(NoJournal)))
    else match Restored(d.settings, d.journal.value)
      case Err(e) => Trace([], if e == NilMapPanic then Crashed else Returned(Some(e)))
      case Ok(f) =>
        if d.settings.Missing? then DeleteTrace(d, deleteIo)
        else match restoreIo
          case Dies => Trace([], Crashed)
          case Fails => Trace([], Returned(Some(WriteFailed)))
          case Done =>
            var d1 := d.(settings := f);
            var rest := DeleteTrace(d1, deleteIo);
            Trace([d1] + rest.disks, rest.ended)
  }

  function BestEffortTrace(d: Disk, url: string, io: Io): Trace {
    match Stripped(d.settings, url)
    case Err(e) => Trace([], Returned(Some(e)))
    case Ok(None) => Trace([], Returned(None))
    case Ok(Some(f)) =>
      match io
      case Dies => Trace([], Crashed)
      case Fails => Trace([], Returned(Some(WriteFailed)))
      case Done => Trace([d.(settings := f)], Returned(None))
  }

  /** The coordinator's way out of network mode: the journal first, best effort when that returns an error. */
  function LeaveTrace(d: Disk, url: string, restoreIo: Io, deleteIo: Io, stripIo: Io): Trace {
    var t := ExitTrace(d, restoreIo, deleteIo);
    if t.ended.Returned? && t.ended.error.Some? then
      var t' := BestEffortTrace(Last(d, t), url, stripIo);
      Trace(t.disks + t'.disks, t'.ended)
    else t
  }

  /** Leaving on a working disk. */
  function Recover(d: Disk, url: string): Disk {
    Last(d, LeaveTrace(d, url, Done, Done, Done))
  }

  // ---------- lookups ----------

  function Top(f: File, k: string): Option<Json> {
    match f
    case Holds(Obj(root), _) => if k in root then Some(root[k]) else None
    case _ => None
  }

  function Env(f: File, k: string): Option<Json> {
    match Top(f, "env")
    case Some(Obj(env)) => if k in env then Some(env[k]) else None
    case _ => None
  }

  /** The redirect as Claude Code and GetState see it: a string, empty when absent, null or "". */
  function BaseURL(f: File): string {
    match Env(f, KEY)
    case Some(Str(s)) => s
    case _ => ""
  }

  /** Every top-level key but env, and every env key but ours, reads the same. */
  ghost predicate SameOutside(a: File, b: File) {
    && (forall k :: k != "env" ==> Top(a, k) == Top(b, k))
    && (forall k :: k != KEY ==> Env(a, k) == Env(b, k))
  }

  /** A file the redirect can live in: absent, or plain JSON with an object root and an object env, if any. */
  predicate Plain(f: File) {
    f.Missing? || (f.Holds? && f.doc.Obj? && !f.comments && ("env" in f.doc.fields ==> f.doc.fields["env"].Obj?))
  }

  // ---------- what every step keeps ----------

  /** Between the original file f0 and its redirection: other lookups intact, a live redirect journaled. */
  ghost predicate Between(f0: File, url: string, d: Disk) {
    && Plain(d.settings) && SameOutside(f0, d.settings)
    && (Env(d.settings, KEY) == Env(f0, KEY) || Env(d.settings, KEY) in {None, Some(Str(url))})
    && (BaseURL(d.settings) != "" ==> d.journal.Some?)
    && (d.journal.Some? ==> !d.journal.value.baseURLWasSet)
  }

  lemma MergedKeeps(f: File, url: string)
    requires Plain(f)
    ensures Merged(f, url).Ok?
    ensures var g := Merged(f, url).value;
            Plain(g) && SameOutside(f, g) && Env(g, KEY) == Some(Str(url))
  {
  }

  lemma RestoredKeeps(f: File, j: Journal)
    requires Plain(f)
    ensures Restored(f, j).Ok?
    ensures var g := Restored(f, j).value;
            && Plain(g) && SameOutside(f, g) && (f.Missing? ==> g == f)
            && (!f.Missing? ==> Env(g, KEY) == if j.baseURLWasSet then Some(Str(j.priorValue)) else None)
  {
  }

  lemma StrippedKeeps(f: File, url: string)
    requires Plain(f)
    ensures Stripped(f, url).Ok?
    ensures match Stripped(f, url).value
            case None => Env(f, KEY) != Some(Str(url))
            case Some(g) => Plain(g) && SameOutside(f, g) && Env(g, KEY) == None
  {
  }

  /** The redirect GetState reports is the lookup. */
  lemma StateIsLookup(f: File)
    requires Plain(f) && GetState(f).Ok?
    ensures GetState(f).value.baseURL == BaseURL(f)
  {
  }

  lemma EnterKeeps(f0: File, url: string, d: Disk, session: string, journalIo: Io, settingsIo: Io, cleanupIo: Io)
    requires Between(f0, url, d) && BaseURL(d.settings) == ""
    ensures forall x :: x in EnterTrace(d, url, session, journalIo, settingsIo, cleanupIo).disks ==> Between(f0, url, x)
  {
    MergedKeeps(d.settings, url);
    if GetState(d.settings).Ok? {
      StateIsLookup(d.settings);
    }
  }

  lemma ExitKeeps(f0: File, url: string, d: Disk, restoreIo: Io, deleteIo: Io)
    requires Between(f0, url, d) && BaseURL(f0) == ""
    ensures forall x :: x in ExitTrace(d, restoreIo, deleteIo).disks ==> Between(f0, url, x)
  {
    if d.journal.Some? {
      RestoredKeeps(d.settings, d.journal.value);
    }
  }

  lemma BestEffortKeeps(f0: File, url: string, d: Disk, io: Io)
    requires Between(f0, url, d)
    ensures forall x :: x in BestEffortTrace(d, url, io).disks ==> Between(f0, url, x)
  {
    StrippedKeeps(d.settings, url);
  }

  /** Calls on the store; each may be cut short at any write. */
  datatype Op =
    | EnterOp(session: string, journalIo: Io, settingsIo: Io, cleanupIo: Io)
    | ExitOp(restoreIo: Io, deleteIo: Io)
    | BestEffortOp(io: Io)
    | LeaveOp(restoreIo: Io, deleteIo: Io, stripIo: Io)

  function TraceOf(d: Disk, url: string, op: Op): Trace {
    match op
    case EnterOp(session, a, b, c) => EnterTrace(d, url, session, a, b, c)
    case ExitOp(a, b) => ExitTrace(d, a, b)
    case BestEffortOp(a) => BestEffortTrace(d, url, a)
    case LeaveOp(a, b, c) => LeaveTrace(d, url, a, b, c)
  }

  /** Entering only while no redirect is live; leaving at any time. */
  predicate Orderly(d: Disk, url: string, ops: seq<Op>)
    decreases |ops|
  {
    ops == [] || ((ops[0].EnterOp? ==> BaseURL(d.settings) == "")
                  && Orderly(Last(d, TraceOf(d, url, ops[0])), url, ops[1..]))
  }

  /** Every disk state a sequence of calls passes through. */
  function Visited(d: Disk, url: string, ops: seq<Op>): seq<Disk>
    decreases |ops|
  {
    if ops == [] then [d]
    else [d] + TraceOf(d, url, ops[0]).disks + Visited(Last(d, TraceOf(d, url, ops[0])), url, ops[1..])
  }

  lemma {:induction false} VisitedKeeps(f0: File, url: string, d: Disk, ops: seq<Op>)
    requires Between(f0, url, d) && BaseURL(f0) == "" && Orderly(d, url, ops)
    ensures forall x :: x in Visited(d, url, ops) ==> Between(f0, url, x)
    decreases |ops|
  {
    if ops != [] {
      match ops[0] {
        case EnterOp(session, a, b, c) => EnterKeeps(f0, url, d, session, a, b, c);
        case ExitOp(a, b) => ExitKeeps(f0, url, d, a, b);
        case BestEffortOp(a) => BestEffortKeeps(f0, url, d, a);
        case LeaveOp(a, b, c) =>
          ExitKeeps(f0, url, d, a, b);
          BestEffortKeeps(f0, url, Last(d, ExitTrace(d, a, b)), c);
      }
      VisitedKeeps(f0, url, Last(d, TraceOf(d, url, ops[0])), ops[1..]);
    }
  }

  /** From anywhere between, recovery removes the redirect and touches nothing else. */
  lemma RecoverRestores(f0: File, url: string, d: Disk)
    requires Between(f0, url, d) && BaseURL(f0) == ""
    ensures var r := Recover(d, url);
            && SameOutside(f0, r.settings) && r.journal.None?
            && BaseURL(r.settings) == ""
            && (Env(r.settings, KEY) == None || Env(r.settings, KEY) == Env(f0, KEY))
  {
    if d.journal.Some? {
      RestoredKeeps(d.settings, d.journal.value);
    } else {
      StrippedKeeps(d.settings, url);
    }
  }

  /**
   Entering only while no redirect is live: wherever a call is cut short, a live redirect has its
   journal, and leaving once from any disk state passed through restores every lookup.
   */
  lemma OrderlyCrashRecovery(d0: Disk, url: string, ops: seq<Op>)
    requires Plain(d0.settings) && d0.journal.None? && BaseURL(d0.settings) == "" && Orderly(d0, url, ops)
    ensures forall x :: x in Visited(d0, url, ops) ==>
              && (BaseURL(x.settings) != "" ==> x.journal.Some?)
              && SameOutside(d0.settings, Recover(x, url).settings)
              && BaseURL(Recover(x, url).settings) == ""
              && (Env(d0.settings, KEY) == None ==> Env(Recover(x, url).settings, KEY) == None)
  {
    VisitedKeeps(d0.settings, url, d0, ops);
    forall x | x in Visited(d0, url, ops)
      ensures && (BaseURL(x.settings) != "" ==> x.journal.Some?)
              && SameOutside(d0.settings, Recover(x, url).settings)
              && BaseURL(Recover(x, url).settings) == ""
              && (Env(d0.settings, KEY) == None ==> Env(Recover(x, url).settings, KEY) == None)
    {
      RecoverRestores(d0.settings, url, x);
    }
  }

  // ---------- what an entry decides, from lookups alone ----------

  /** A provider switch that is absent, null, empty or set to one of the off words. */
  predicate Off(j: Option<Json>) {
    match j
    case None => true
    case Some(Null) => true
    case Some(Str(s)) => s in {"", "0", "false", "no", "off", "FALSE", "NO", "OFF", "False", "No", "Off"}
    case _ => false
  }

  function LowerChar(c: char): char {
    if 'A' <= c <= 'Z' then c - 'A' + 'a' else c
  }

  function LowerCase(s: string): string {
    if s == "" then "" else [LowerChar(s[0])] + LowerCase(s[1..])
  }

  /** Of the spellings of an off word three turn a switch off: lower case, upper case and capitalised. */
  lemma OffWordsExactly(s: string)
    requires LowerCase(s) in {"0", "no", "off", "false"}
    ensures Off(Some(Str(s))) <==>
            s in {"0", "no", "NO", "No", "off", "OFF", "Off", "false", "FALSE", "False"}
  {
  }

  /** Another spelling leaves it on. */
  lemma MixedCaseIsOn()
    ensures LowerCase("oFf") == "off" && !Off(Some(Str("oFf")))
  {
    assert "oFf" == ['o', 'F', 'f'];
    assert LowerCase("f") == "f" && LowerCase("Ff") == "ff";
  }

  /** A file the state reader accepts: its env, if it has one, holds only strings and nulls. */
  predicate Readable(f: File) {
    match f
    case Missing => true
    case Garbage => false
    case Holds(Null, _) => true
    case Holds(Obj(root), _) =>
      "env" in root ==> root["env"].Null? || (root["env"].Obj? && forall k :: k in root["env"].fields ==>
        root["env"].fields[k].Str? || root["env"].fields[k].Null?)
    case _ => false
  }

  predicate HasComments(f: File) {
    f.Holds? && f.comments
  }

  /** The first reason an entry refuses, by its lookups: providers in order, comments, another redirect, an env it cannot extend. */
  function Verdict(f: File, url: string): Option<Error> {
    if !Readable(f) then Some(BadFile)
    else if !Off(Env(f, "CLAUDE_CODE_USE_BEDROCK")) then Some(Bedrock)
    else if !Off(Env(f, "CLAUDE_CODE_USE_VERTEX")) then Some(Vertex)
    else if !Off(Env(f, "CLAUDE_CODE_USE_FOUNDRY")) then Some(Foundry)
    else if HasComments(f) then Some(Comments)
    else if BaseURL(f) != "" && BaseURL(f) != url then Some(PreExistingRedirect)
    else if Top(f, "env") == Some(Null) then Some(EnvNotObject)
    else None
  }

  lemma SwitchIsLookup(f: File)
    requires Readable(f)
    ensures GetState(f).Ok?
    ensures var st := GetState(f).value;
            && st.present == !f.Missing? && st.comments == HasComments(f) && st.baseURL == BaseURL(f)
            && st.bedrock == !Off(Env(f, "CLAUDE_CODE_USE_BEDROCK"))
            && st.vertex == !Off(Env(f, "CLAUDE_CODE_USE_VERTEX"))
            && st.foundry == !Off(Env(f, "CLAUDE_CODE_USE_FOUNDRY"))
  {
  }

  /**
   An entry refuses, with nothing written, for exactly the first reason there is; with none it
   writes the journal first, for this redirect and session and with the value it found, and the
   redirect second.
   */
  lemma EnterDecides(d: Disk, url: string, session: string)
    ensures var t := EnterTrace(d, url, session, Done, Done, Done);
            match Verdict(d.settings, url)
            case Some(e) => t == Trace([], Returned(Some(e)))
            case None =>
              && |t.disks| == 2 && t.ended == Returned(None)
              && t.disks[0] == d.(journal := Some(Journal(url, session, BaseURL(d.settings) != "",
                                                          BaseURL(d.settings), !d.settings.Missing?)))
              && t.disks[1].journal == t.disks[0].journal
              && Env(t.disks[1].settings, "ANTHROPIC_BASE_URL") == Some(Str(url)) && BaseURL(t.disks[1].settings) == url
  {
    if Readable(d.settings) {
      SwitchIsLookup(d.settings);
    }
  }

  /** How an entry that nothing speaks against ends: by which of its writes happens, fails or is not lived to see. */
  lemma EnterEnds(d: Disk, url: string, session: string, a: Io, b: Io, c: Io)
    requires Verdict(d.settings, url).None?
    ensures var t := EnterTrace(d, url, session, a, b, c);
            && (t.ended == Returned(None) <==> a == Done && b == Done)
            && (t.ended == Crashed <==> a == Dies || (a == Done && (b == Dies || (b == Fails && c == Dies))))
            && (t.ended == Returned(Some(WriteFailed)) <==> a == Fails || (a == Done && b == Fails && c != Dies))
            && (t.disks == [] <==> a != Done)
            && (t.disks != [] && t.ended != Returned(None) ==> Last(d, t).settings == d.settings)
            && (a == Done && b == Fails && c == Done ==> Last(d, t).journal == None)
  {
    SwitchIsLookup(d.settings);
  }

  /** Only plain JSON with an object or null at its root can be rewritten. */
  predicate Rewritable(f: File) {
    f.Holds? && !f.comments && f.doc.Obj?
  }

  /** How a journal exit ends, and which of its two writes it gets to. */
  lemma ExitDecides(d: Disk, restoreIo: Io, deleteIo: Io)
    ensures var t := ExitTrace(d, restoreIo, deleteIo);
            if d.journal.None? then t == Trace([], Returned(Some(NoJournal)))
            else if d.settings.Missing? then
              && (t.ended == Returned(None) <==> deleteIo == Done) && (t.ended == Crashed <==> deleteIo == Dies)
              && t.disks == (if deleteIo == Done then [d.(journal := None)] else [])
            else if d.settings == Holds(Null, false) then t == Trace([], Crashed)
            else if !Rewritable(d.settings) then t == Trace([], Returned(Some(BadFile)))
            else
              && (t.ended == Returned(None) <==> restoreIo == Done && deleteIo == Done)
              && (t.ended == Crashed <==> restoreIo == Dies || (restoreIo == Done && deleteIo == Dies))
              && (t.ended == Returned(Some(WriteFailed)) <==> restoreIo == Fails || (restoreIo == Done && deleteIo == Fails))
              && |t.disks| == (if restoreIo != Done then 0 else if deleteIo != Done then 1 else 2)
              && (t.disks != [] ==>
                    && t.disks[0].journal == d.journal
                    && Env(t.disks[0].settings, "ANTHROPIC_BASE_URL")
                       == if d.journal.value.baseURLWasSet then Some(Str(d.journal.value.priorValue)) else None)
              && (|t.disks| == 2 ==> t.disks[1] == t.disks[0].(journal := None))
  {
  }

  /** How a best-effort exit ends: one write when our redirect is there, none otherwise, and an error for a file it cannot read. */
  lemma BestEffortDecides(d: Disk, url: string, io: Io)
    ensures var t := BestEffortTrace(d, url, io);
            if d.settings.Missing? || d.settings == Holds(Null, false) then t == Trace([], Returned(None))
            else if !Rewritable(d.settings) then t == Trace([], Returned(Some(BadFile)))
            else if Env(d.settings, "ANTHROPIC_BASE_URL") != Some(Str(url)) then t == Trace([], Returned(None))
            else
              && (t.ended == Returned(None) <==> io == Done) && (t.ended == Crashed <==> io == Dies)
              && (t.ended == Returned(Some(WriteFailed)) <==> io == Fails)
              && (io == Done ==> |t.disks| == 1 && t.disks[0].journal == d.journal
                                 && Env(t.disks[0].settings, "ANTHROPIC_BASE_URL") == None)
              && (io != Done ==> t.disks == [])
  {
  }

  /** So any entry that wrote anything found every provider off and no other redirect. */
  lemma EnteredIsOff(d: Disk, url: string, session: string, journalIo: Io, settingsIo: Io, cleanupIo: Io)
    requires EnterTrace(d, url, session, journalIo, settingsIo, cleanupIo).disks != []
    ensures Off(Env(d.settings, "CLAUDE_CODE_USE_BEDROCK")) && Off(Env(d.settings, "CLAUDE_CODE_USE_VERTEX"))
    ensures Off(Env(d.settings, "CLAUDE_CODE_USE_FOUNDRY")) && !HasComments(d.settings)
    ensures BaseURL(d.settings) in {"", url}
  {
    assert Verdict(d.settings, url).None? by {
      EnterDecides(d, url, session);
    }
  }

  // ---------- entering again while the redirect is live ----------

  /** Between the original file and its redirection; a journal of a re-entry names the redirect as the prior value. */
  ghost predicate Within(f0: File, url: string, d: Disk) {
    && Plain(d.settings) && SameOutside(f0, d.settings)
    && (Env(d.settings, KEY) == Env(f0, KEY) || Env(d.settings, KEY) in {None, Some(Str(url))})
    && (d.journal.Some? && d.journal.value.baseURLWasSet ==> d.journal.value.priorValue == url)
  }

  lemma EnterStaysWithin(f0: File, url: string, d: Disk, session: string, journalIo: Io, settingsIo: Io, cleanupIo: Io)
    requires Within(f0, url, d)
    ensures forall x :: x in EnterTrace(d, url, session, journalIo, settingsIo, cleanupIo).disks ==> Within(f0, url, x)
  {
    MergedKeeps(d.settings, url);
    if GetState(d.settings).Ok? {
      StateIsLookup(d.settings);
    }
  }

  lemma ExitStaysWithin(f0: File, url: string, d: Disk, restoreIo: Io, deleteIo: Io)
    requires Within(f0, url, d)
    ensures forall x :: x in ExitTrace(d, restoreIo, deleteIo).disks ==> Within(f0, url, x)
  {
    if d.journal.Some? {
      RestoredKeeps(d.settings, d.journal.value);
    }
  }

  lemma BestEffortStaysWithin(f0: File, url: string, d: Disk, io: Io)
    requires Within(f0, url, d)
    ensures forall x :: x in BestEffortTrace(d, url, io).disks ==> Within(f0, url, x)
  {
    StrippedKeeps(d.settings, url);
  }

  lemma OpStaysWithin(f0: File, url: string, d: Disk, op: Op)
    requires Within(f0, url, d)
    ensures forall x :: x in TraceOf(d, url, op).disks ==> Within(f0, url, x)
    ensures Within(f0, url, Last(d, TraceOf(d, url, op)))
  {
    match op {
      case EnterOp(session, a, b, c) => EnterStaysWithin(f0, url, d, session, a, b, c);
      case ExitOp(a, b) => ExitStaysWithin(f0, url, d, a, b);
      case BestEffortOp(a) => BestEffortStaysWithin(f0, url, d, a);
      case LeaveOp(a, b, c) =>
        ExitStaysWithin(f0, url, d, a, b);
        BestEffortStaysWithin(f0, url, Last(d, ExitTrace(d, a, b)), c);
    }
  }

  lemma {:induction false} VisitedStaysWithin(f0: File, url: string, d: Disk, ops: seq<Op>)
    requires Within(f0, url, d)
    ensures forall x :: x in Visited(d, url, ops) ==> Within(f0, url, x)
    decreases |ops|
  {
    if ops != [] {
      OpStaysWithin(f0, url, d, ops[0]);
      VisitedStaysWithin(f0, url, Last(d, TraceOf(d, url, ops[0])), ops[1..]);
    }
  }

  /** The journal restores a live redirect. */
  predicate RestoresRedirect(d: Disk) {
    d.journal.Some? && d.journal.value.baseURLWasSet && !d.settings.Missing?
  }

  lemma LeaveOnce(f0: File, url: string, d: Disk)
    requires Within(f0, url, d) && BaseURL(f0) == "" && url != ""
    ensures var once := Recover(d, url);
            && Within(f0, url, once) && once.journal.None?
            && (BaseURL(once.settings) == "" <==> !RestoresRedirect(d))
  {
    OpStaysWithin(f0, url, d, LeaveOp(Done, Done, Done));
    if d.journal.Some? {
      RestoredKeeps(d.settings, d.journal.value);
    } else {
      StrippedKeeps(d.settings, url);
    }
  }

  /** What one and two leaves make of any disk state within. */
  lemma LeavesRestore(f0: File, url: string, d: Disk)
    requires Within(f0, url, d) && BaseURL(f0) == "" && url != ""
    ensures var once := Recover(d, url);
            && Within(f0, url, once) && once.journal.None?
            && (BaseURL(once.settings) == "" <==> !RestoresRedirect(d))
    ensures var twice := Recover(Recover(d, url), url);
            && SameOutside(f0, twice.settings) && twice.journal.None? && BaseURL(twice.settings) == ""
            && (Env(twice.settings, KEY) == None || Env(twice.settings, KEY) == Env(f0, KEY))
  {
    LeaveOnce(f0, url, d);
    var once := Recover(d, url);
    LeaveOnce(f0, url, once);
    StrippedKeeps(once.settings, url);
  }

  /**
   Crash recovery. From plain settings without a redirect and without a journal, whatever calls run,
   entries over a live redirect included, and wherever each is cut short: from every disk state
   passed through, leaving once removes the redirect exactly when the journal does not name it as
   the prior value, and leaving twice always restores every lookup.
   */
  lemma CrashRecovery(d0: Disk, url: string, ops: seq<Op>)
    requires Plain(d0.settings) && d0.journal.None? && BaseURL(d0.settings) == "" && url != ""
    ensures forall x :: x in Visited(d0, url, ops) ==>
              && SameOutside(d0.settings, x.settings)
              && (BaseURL(Recover(x, url).settings) == "" <==> !RestoresRedirect(x))
              && SameOutside(d0.settings, Recover(Recover(x, url), url).settings)
              && BaseURL(Recover(Recover(x, url), url).settings) == ""
              && (Env(d0.settings, KEY) == None ==> Env(Recover(Recover(x, url), url).settings, KEY) == None)
  {
    VisitedStaysWithin(d0.settings, url, d0, ops);
    forall x | x in Visited(d0, url, ops)
      ensures && SameOutside(d0.settings, x.settings)
              && (BaseURL(Recover(x, url).settings) == "" <==> !RestoresRedirect(x))
              && SameOutside(d0.settings, Recover(Recover(x, url), url).settings)
              && BaseURL(Recover(Recover(x, url), url).settings) == ""
              && (Env(d0.settings, KEY) == None ==> Env(Recover(Recover(x, url), url).settings, KEY) == None)
    {
      LeavesRestore(d0.settings, url, x);
    }
  }

  /** A live redirect has its journal. */
  predicate Covered(d: Disk) {
    BaseURL(d.settings) != "" ==> d.journal.Some?
  }

  /**
   The calls that uncover a live redirect: an entry over it whose settings write fails and whose
   cleanup succeeds, and an exit that restores it and deletes the journal.
   */
  predicate Uncovers(d: Disk, url: string, op: Op) {
    match op
    case EnterOp(_, journalIo, settingsIo, cleanupIo) =>
      && BaseURL(d.settings) != "" && GetState(d.settings).Ok? && Incompatible(GetState(d.settings).value, url).None?
      && journalIo == Done && settingsIo == Fails && cleanupIo == Done
    case ExitOp(restoreIo, deleteIo) => RestoresRedirect(d) && restoreIo == Done && deleteIo == Done
    case BestEffortOp(_) => false
    case LeaveOp(restoreIo, deleteIo, _) => RestoresRedirect(d) && restoreIo == Done && deleteIo == Done
  }

  lemma UncoversExactly(f0: File, url: string, d: Disk, op: Op)
    requires Within(f0, url, d) && BaseURL(f0) == "" && url != "" && Covered(d)
    ensures (forall x :: x in TraceOf(d, url, op).disks ==> Covered(x)) <==> !Uncovers(d, url, op)
    ensures !Uncovers(d, url, op) ==> Covered(Last(d, TraceOf(d, url, op)))
  {
    match op {
      case EnterOp(session, a, b, c) => EnterUncovers(f0, url, d, session, a, b, c);
      case ExitOp(a, b) => ExitUncovers(f0, url, d, a, b);
      case BestEffortOp(a) => StrippedKeeps(d.settings, url);
      case LeaveOp(a, b, c) =>
        ExitUncovers(f0, url, d, a, b);
        var d1 := Last(d, ExitTrace(d, a, b));
        ExitStaysWithin(f0, url, d, a, b);
        StrippedKeeps(d1.settings, url);
    }
  }

  lemma EnterUncovers(f0: File, url: string, d: Disk, session: string, a: Io, b: Io, c: Io)
    requires Within(f0, url, d) && url != "" && Covered(d)
    ensures var t := EnterTrace(d, url, session, a, b, c);
            && ((forall x :: x in t.disks ==> Covered(x)) <==> !Uncovers(d, url, EnterOp(session, a, b, c)))
            && (!Uncovers(d, url, EnterOp(session, a, b, c)) ==> Covered(Last(d, t)))
  {
    MergedKeeps(d.settings, url);
    if GetState(d.settings).Ok? {
      StateIsLookup(d.settings);
    }
    var t := EnterTrace(d, url, session, a, b, c);
    if Uncovers(d, url, EnterOp(session, a, b, c)) {
      assert t.disks[1] in t.disks && !Covered(t.disks[1]);
    }
  }

  lemma ExitUncovers(f0: File, url: string, d: Disk, a: Io, b: Io)
    requires Within(f0, url, d) && url != "" && Covered(d)
    ensures var t := ExitTrace(d, a, b);
            && ((forall x :: x in t.disks ==> Covered(x)) <==> !Uncovers(d, url, ExitOp(a, b)))
            && (!Uncovers(d, url, ExitOp(a, b)) ==> Covered(Last(d, t)))
  {
    if d.journal.Some? {
      RestoredKeeps(d.settings, d.journal.value);
    }
    var t := ExitTrace(d, a, b);
    if Uncovers(d, url, ExitOp(a, b)) {
      assert t.disks[1] in t.disks && !Covered(t.disks[1]);
    }
  }

  ghost predicate NoneUncovers(d: Disk, url: string, ops: seq<Op>)
    decreases |ops|
  {
    ops == [] || (!Uncovers(d, url, ops[0]) && NoneUncovers(Last(d, TraceOf(d, url, ops[0])), url, ops[1..]))
  }

  /**
   The journal, exactly: all through a sequence of calls a live redirect has its journal, if and
   only if none of the calls uncovers it.
   */
  lemma {:induction false} CoveredExactly(f0: File, url: string, d: Disk, ops: seq<Op>)
    requires Within(f0, url, d) && BaseURL(f0) == "" && url != "" && Covered(d)
    ensures (forall x :: x in Visited(d, url, ops) ==> Covered(x)) <==> NoneUncovers(d, url, ops)
    decreases |ops|
  {
    if ops != [] {
      var t := TraceOf(d, url, ops[0]);
      var d1 := Last(d, t);
      UncoversExactly(f0, url, d, ops[0]);
      OpStaysWithin(f0, url, d, ops[0]);
      if !Uncovers(d, url, ops[0]) {
        CoveredExactly(f0, url, d1, ops[1..]);
      } else {
        var x :| x in t.disks && !Covered(x);
        assert x in Visited(d, url, ops);
      }
    }
  }

  /** Enter writes nothing to any other file, except that it accepts one holding null. */
  lemma OnlyPlainOrNullIsEntered(d: Disk, url: string, session: string, journalIo: Io, settingsIo: Io, cleanupIo: Io)
    requires EnterTrace(d, url, session, journalIo, settingsIo, cleanupIo).disks != []
    ensures Plain(d.settings) || d.settings == Holds(Null, false)
  {
  }

  // ---------- exactly when an undisturbed round trip restores ----------

  /** Enter and then Exit with every write done. */
  function RoundTrip(d: Disk, url: string, session: string): Disk {
    var d1 := Last(d, EnterTrace(d, url, session, Done, Done, Done));
    Last(d1, ExitTrace(d1, Done, Done))
  }

  /**
   The raw lookup of our key comes back exactly when it was absent or already a live redirect;
   a present null or empty string is dropped. The redirect itself is gone afterwards exactly
   when it was not live before Enter: re-entering journals the redirect as the prior value.
   */
  lemma RoundTripExact(d: Disk, url: string, session: string)
    requires Plain(d.settings) && url != ""
    requires EnterTrace(d, url, session, Done, Done, Done).ended == Returned(None)
    ensures var r := RoundTrip(d, url, session);
            && SameOutside(d.settings, r.settings) && r.journal.None?
            && (Env(r.settings, KEY) == Env(d.settings, KEY) <==> Env(d.settings, KEY) in {None, Some(Str(url))})
            && (BaseURL(r.settings) == "" <==> BaseURL(d.settings) != url)
            && BaseURL(r.settings) == BaseURL(d.settings)
  {
    StateIsLookup(d.settings);
    MergedKeeps(d.settings, url);
    var d1 := Last(d, EnterTrace(d, url, session, Done, Done, Done));
    RestoredKeeps(d1.settings, d1.journal.value);
  }

  /** Of the files an entry accepts, exactly the one holding null cannot be restored after a crash between the two writes. */
  lemma OnlyNullCannotBeRestored(d: Disk, url: string, session: string)
    requires EnterTrace(d, url, session, Done, Dies, Done).disks != []
    ensures var exit := ExitTrace(Last(d, EnterTrace(d, url, session, Done, Dies, Done)), Done, Done);
            && (exit.ended == Crashed <==> d.settings == Holds(Null, false))
            && (exit.ended == Returned(None) <==> d.settings != Holds(Null, false))
  {
    var d1 := Last(d, EnterTrace(d, url, session, Done, Dies, Done));
    OnlyPlainOrNullIsEntered(d, url, session, Done, Dies, Done);
    if Plain(d.settings) {
      RestoredKeeps(d.settings, d1.journal.value);
    }
  }

  /** A settings file holding null passes Enter's checks, but after a crash between its two writes Exit dies. */
  lemma NullRootCannotBeRestored(url: string, session: string)
    ensures var d := Disk(Holds(Null, false), None);
            var t := EnterTrace(d, url, session, Done, Dies, Done);
            && EnterTrace(d, url, session, Done, Done, Done).ended == Returned(None)
            && t.ended == Crashed && ExitTrace(Last(d, t), Done, Done) == Trace([], Crashed)
  {
  }

  // ---------- the store ----------

  class Store {
    var settings: File
    var journal: Option<Journal>
    ghost var visited: seq<Disk>

    constructor (settings: File, journal: Option<Journal>)
      ensures View() == Disk(settings, journal) && visited == []
    {
      this.settings, this.journal, visited := settings, journal, [];
    }

    ghost function View(): Disk
      reads this
    {
      Disk(settings, journal)
    }

    /** Atomic replacement of the journal. */
    method WriteJournal(j: Option<Journal>, io: Io) returns (ended: Ended)
      modifies this
      ensures settings == old(settings)
      ensures io == Done ==> ended == Returned(None) && journal == j && visited == old(visited) + [View()]
      ensures io == Fails ==> ended == Returned(Some(WriteFailed))
      ensures io == Dies ==> ended == Crashed
      ensures io != Done ==> journal == old(journal) && visited == old(visited)
    {
      match io {
        case Dies => ended := Crashed;
        case Fails => ended := Returned(Some(WriteFailed));
        case Done =>
          journal := j;
          visited := visited + [Disk(settings, journal)];
          ended := Returned(None);
      }
    }

    /** Atomic replacement of the settings file. */
    method WriteSettings(f: File, io: Io) returns (ended: Ended)
      modifies this
      ensures journal == old(journal)
      ensures io == Done ==> ended == Returned(None) && settings == f && visited == old(visited) + [View()]
      ensures io == Fails ==> ended == Returned(Some(WriteFailed))
      ensures io == Dies ==> ended == Crashed
      ensures io != Done ==> settings == old(settings) && visited == old(visited)
    {
      match io {
        case Dies => ended := Crashed;
        case Fails => ended := Returned(Some(WriteFailed));
        case Done =>
          settings := f;
          visited := visited + [Disk(settings, journal)];
          ended := Returned(None);
      }
    }

    /** Parses the settings, sets our env entry in place, and returns the new file. */
    method MergeWithBaseURL(url: string) returns (merged: Result<File>)
      ensures merged == Merged(settings, url)
    {
      var root: map<string, Json> := map[];
      if !settings.Missing? {
        var parsed := RootOf(settings);
        if parsed.Err? {
          return Err(parsed.error);
        }
        if parsed.value.Some? {
          root := parsed.value.value;
        }
      }
      var env: map<string, Json> := map[];
      if "env" in root {
        if !root["env"].Obj? {
          return Err(EnvNotObject);
        }
        env := root["env"].fields;
      }
      env := env[KEY := Str(url)];
      root := root["env" := Obj(env)];
      return Ok(Holds(Obj(root), false));
    }

    /** Parses the settings and puts our env entry back as the journal says. */
    method RestoreFromJournal(j: Journal) returns (restored: Result<File>)
      ensures restored == Restored(settings, j)
    {
      if settings.Missing? {
        return Ok(settings);
      }
      var parsed := RootOf(settings);
      if parsed.Err? {
        return Err(parsed.error);
      }
      if parsed.value.None? {
        return Err(NilMapPanic);
      }
      var root := parsed.value.value;
      var env: map<string, Json> := map[];
      if "env" in root && root["env"].Obj? {
        env := root["env"].fields;
      }
      if j.baseURLWasSet {
        env := env[KEY := Str(j.priorValue)];
      } else {
        env := env - {KEY};
      }
      root := root["env" := Obj(env)];
      return Ok(Holds(Obj(root), false));
    }

    /** Removes our env entry when it is the given redirect; None means nothing to change. */
    method StripBaseURLIfMatches(url: string) returns (stripped: Result<Option<File>>)
      ensures stripped == Stripped(settings, url)
    {
      if settings.Missing? {
        return Ok(None);
      }
      var parsed := RootOf(settings);
      if parsed.Err? {
        return Err(parsed.error);
      }
      if parsed.value.None? {
        return Ok(None);
      }
      var root := parsed.value.value;
      if "env" !in root || !root["env"].Obj? {
        return Ok(None);
      }
      var env := root["env"].fields;
      if KEY !in env || env[KEY] != Str(url) {
        return Ok(None);
      }
      env := env - {KEY};
      root := root["env" := Obj(env)];
      return Ok(Some(Holds(Obj(root), false)));
    }

    /** The journal is written before the settings, and removed again when the settings write fails. */
    method EnterNetworkMode(url: string, session: string, journalIo: Io, settingsIo: Io, cleanupIo: Io)
        returns (ended: Ended)
      modifies this
      ensures var t := EnterTrace(old(View()), url, session, journalIo, settingsIo, cleanupIo);
              View() == Last(old(View()), t) && ended == t.ended && visited == old(visited) + t.disks
    {
      var state := GetState(settings);
      if state.Err? {
        return Returned(Some(state.error));
      }
      var refusal := Incompatible(state.value, url);
      if refusal.Some? {
        return Returned(refusal);
      }
      var merged := MergeWithBaseURL(url);
      if merged.Err? {
        return Returned(Some(merged.error));
      }
      var j := Journal(url, session, state.value.baseURL != "", state.value.baseURL, state.value.present);
      ended := WriteJournal(Some(j), journalIo);
      if ended != Returned(None) {
        return;
      }
      ended := WriteSettings(merged.value, settingsIo);
      if ended == Returned(Some(WriteFailed)) {
        var cleanup := WriteJournal(None, cleanupIo);
        if cleanup == Crashed {
          ended := Crashed;
        }
      }
    }

    /** Restores the settings first and deletes the journal last. */
    method ExitNetworkMode(restoreIo: Io, deleteIo: Io) returns (ended: Ended)
      modifies this
      ensures var t := ExitTrace(old(View()), restoreIo, deleteIo);
              View() == Last(old(View()), t) && ended == t.ended && visited == old(visited) + t.disks
    {
      if journal == None {
        return Returned(Some(NoJournal));
      }
      var f := RestoreFromJournal(journal.value);
      if f.Err? {
        return if f.error == NilMapPanic then Crashed else Returned(Some(f.error));
      }
      if !settings.Missing? {
        ended := WriteSettings(f.value, restoreIo);
        if ended != Returned(None) {
          return;
        }
      }
      ended := WriteJournal(None, deleteIo);
    }

    method ExitNetworkModeBestEffort(url: string, io: Io) returns (ended: Ended)
      modifies this
      ensures var t := BestEffortTrace(old(View()), url, io);
              View() == Last(old(View()), t) && ended == t.ended && visited == old(visited) + t.disks
    {
      var stripped := StripBaseURLIfMatches(url);
      if stripped.Err? {
        return Returned(Some(stripped.error));
      }
      if stripped.value.None? {
        return Returned(None);
      }
      ended := WriteSettings(stripped.value.value, io);
    }

    /** The coordinator's way out of network mode. */
    method LeaveNetworkMode(url: string, restoreIo: Io, deleteIo: Io, stripIo: Io) returns (ended: Ended)
      modifies this
      ensures var t := LeaveTrace(old(View()), url, restoreIo, deleteIo, stripIo);
              View() == Last(old(View()), t) && ended == t.ended && visited == old(visited) + t.disks
    {
      ended := ExitNetworkMode(restoreIo, deleteIo);
      if ended.Returned? && ended.error.Some? {
        ended := ExitNetworkModeBestEffort(url, stripIo);
      }
    }
  }
}
