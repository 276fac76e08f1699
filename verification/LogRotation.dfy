/** Log rotation: when the live file has grown too large the numbered backups move up by one and the live file
  * becomes backup 1. Every remove, rename and reopen may fail; a rename also fails when its target exists.
  */
module LogRotation {

  import opened Numbers

  datatype Option<T> = None | Some(value: T)

  datatype Name = Live | Backup(n: nat)

  type Files = map<Name, string>

  datatype Mode = NotOpen | Open

  /** Which file operations the system lets succeed during one rotation. */
  datatype Outcomes = Outcomes(remove: bool, rename: nat -> bool, renameLive: bool, reopen: bool)

  function Look(files: Files, name: Name): Option<string> {
    if name in files then Some(files[name]) else None
  }

  function Get(files: Files, name: Name): string {
    if name in files then files[name] else ""
  }

  // ---------- what a rotation does ----------

  /** Backup n is gone and the backups above k have moved up, which leaves k + 1 vacant. */
  predicate ShiftedAt(before: Files, after: Files, k: int, n: nat, j: nat)
    requires k >= -1
  {
    Look(after, Backup(j)) == if j == k + 1 then None
                              else if k + 1 < j <= n then Look(before, Backup(j - 1))
                              else Look(before, Backup(j))
  }

  ghost predicate Shifted(before: Files, after: Files, k: int, n: nat)
    requires k >= -1
  {
    && Look(after, Live) == Look(before, Live)
    && forall j: nat :: ShiftedAt(before, after, k, n, j)
  }

  /** The highest backup up to i whose rename the system refuses; 0 when there is none. */
  function Stuck(files: Files, i: int, rename: nat -> bool): nat {
    if i < 1 then 0 else if Backup(i) in files && !rename(i) then i else Stuck(files, i - 1, rename)
  }

  datatype Log = Log(files: Files, mode: Mode)

  /** The number of backups fits the loop over them, which counts down in a signed number. */
  predicate Countable(n: nat) {
    1 <= n < INT_SIZE
  }

  function Moved(files: Files, from: Name, to: Name): Files
    requires from in files
  {
    (files - {from})[to := files[from]]
  }

  function Reopened(files: Files, mode: Mode, reopen: bool): Log {
    if mode == Open && reopen then Log(files[Live := Get(files, Live)], Open) else Log(files, NotOpen)
  }

  ghost predicate Rolls(s: Log, n: nat, o: Outcomes, s': Log) {
    if Backup(n) in s.files && !o.remove then
      s' == Log(s.files, NotOpen)
    else
      exists shifted: Files :: RollsBy(s, n, o, s', shifted)
  }

  /** shifted are the files when the loop over the backups ends; only then the live file is renamed. */
  ghost predicate RollsBy(s: Log, n: nat, o: Outcomes, s': Log, shifted: Files) {
    var k: int := if Countable(n) then Stuck(s.files, n - 1, o.rename) else n as int - 1;
    && Shifted(s.files, shifted, k, n)
    && s' == if (Countable(n) && k > 0) || Live !in shifted || Backup(1) in shifted || !o.renameLive
             then Log(shifted, NotOpen)
             else Reopened(Moved(shifted, Live, Backup(1)), s.mode, o.reopen)
  }

  /** One logged message: it reaches the live file if the device is open, then the size is looked at. */
  ghost predicate Writes(s: Log, text: string, n: nat, maxFileSize: nat, o: Outcomes, s': Log) {
    var t := Appended(s, text);
    if |Get(t.files, Live)| > maxFileSize then Rolls(t, n, o, s') else s' == t
  }

  function Appended(s: Log, text: string): Log {
    if s.mode == Open then s.(files := s.files[Live := Get(s.files, Live) + text]) else s
  }

  function MovedUp(files: Files, i: nat): Files {
    if Backup(i) in files then Moved(files, Backup(i), Backup(i + 1)) else files
  }

  /** One round of the loop: the target of the rename is vacant, and afterwards backup i is. */
  lemma ShiftsOn(before: Files, files: Files, i: nat, n: nat)
    requires 1 <= i < n && Shifted(before, files, i, n)
    ensures Backup(i + 1) !in files && Look(files, Backup(i)) == Look(before, Backup(i))
    ensures Shifted(before, MovedUp(files, i), i - 1, n)
  {
    assert ShiftedAt(before, files, i, n, i) && ShiftedAt(before, files, i, n, i + 1);
    var next, k := MovedUp(files, i), i - 1;
    forall j: nat
      ensures ShiftedAt(before, next, k, n, j)
    {
      assert ShiftedAt(before, files, i, n, j);
    }
  }

  // ---------- the code ----------

  class RollerFileLoggerEngine {
    var files: Files
    var mode: Mode
    var maxBackup: nat
    var maxFileSize: nat

    predicate Valid()
      reads this
    {
      // At 0x8000_0000 backups the source adds one to the largest int.
      maxBackup < UINT_SIZE && maxBackup != INT_SIZE
    }

    function State(): Log
      reads this
    {
      Log(files, mode)
    }

    method Rename(from: Name, to: Name, allowed: bool) returns (ok: bool)
      modifies this`files
      ensures ok == (allowed && old(from in files && to !in files))
      ensures files == if ok then Moved(old(files), from, to) else old(files)
    {
      ok := allowed && from in files && to !in files;
      if ok {
        files := Moved(files, from, to);
      }
    }

    method RollOver(o: Outcomes)
      requires Valid()
      modifies this`files, this`mode
      ensures Rolls(old(State()), maxBackup, o, State())
      ensures Backup(maxBackup) in old(files) && !o.remove ==> files == old(files) && mode == NotOpen
    {
      ghost var before, n := files, maxBackup;
      var savedOpenMode := mode;
      mode := NotOpen;
      if Backup(maxBackup) in files {
        if !o.remove {
          return;
        }
        files := files - {Backup(maxBackup)};
      }
      var i := ToInt((maxBackup - 1) % UINT_SIZE);
      while i >= 1
        invariant mode == NotOpen
        invariant Countable(n) ==> 0 <= i < n && Stuck(before, i, o.rename) == Stuck(before, n - 1, o.rename)
        invariant !Countable(n) ==> i < 1
        invariant Shifted(before, files, if Countable(n) then i else n as int - 1, n)
      {
        ShiftsOn(before, files, i, n);
        if Backup(i) in files {
          var ok := Rename(Backup(i), Backup(i + 1), o.rename(i));
          if !ok {
            assert RollsBy(Log(before, savedOpenMode), n, o, State(), files);
            return;
          }
        }
        i := i - 1;
      }
      ghost var shifted := files;
      var ok := Rename(Live, Backup(1), o.renameLive);
      if !ok {
        assert RollsBy(Log(before, savedOpenMode), n, o, State(), shifted);
        return;
      }
      if savedOpenMode == Open && o.reopen {
        mode, files := Open, files[Live := Get(files, Live)];
      }
      assert RollsBy(Log(before, savedOpenMode), n, o, State(), shifted);
    }

    method WriteToFile(text: string, o: Outcomes)
      requires Valid()
      modifies this`files, this`mode
      ensures Writes(old(State()), text, maxBackup, maxFileSize, o, State())
      ensures var total := Get(old(files), Live) + text;
              old(mode) == Open && |total| <= maxFileSize ==> mode == Open && files == old(files)[Live := total]
      ensures var total := Get(old(files), Live) + text;
              old(mode) == Open && |total| > maxFileSize && AllSucceed(o, maxBackup) && Countable(maxBackup) ==>
                && mode == Open && Look(files, Live) == Some("") && Look(files, Backup(1)) == Some(total)
                && (forall j: nat | 2 <= j <= maxBackup :: Look(files, Backup(j)) == Look(old(files), Backup(j - 1)))
                && (forall j: nat | j == 0 || j > maxBackup :: Look(files, Backup(j)) == Look(old(files), Backup(j)))
      ensures mode == Open ==> old(mode) == Open && |Get(files, Live)| <= maxFileSize
      ensures old(mode) == NotOpen && |Get(old(files), Live)| <= maxFileSize ==> State() == old(State())
    {
      ghost var before := State();
      if mode == Open {
        files := files[Live := Get(files, Live) + text];
      }
      ghost var t := State();
      if |Get(files, Live)| > maxFileSize {
        RollOver(o);
        if mode == Open { OpenIsEmpty(t, maxBackup, o, State()); }
        if t.mode == Open && Countable(maxBackup) && AllSucceed(o, maxBackup) {
          RollSucceeds(t, maxBackup, o, State());
          AppendKeepsBackups(before, text);
        }
      }
    }
  }

  // ---------- what is kept ----------

  /** Everything in backups n, n - 1, ..., 1, oldest first. */
  function Backups(files: Files, n: nat): string {
    if n == 0 then "" else Get(files, Backup(n)) + Backups(files, n - 1)
  }

  function History(files: Files, n: nat): string {
    Backups(files, n) + Get(files, Live)
  }

  lemma {:induction false} BackupsBelow(before: Files, after: Files, k: nat, n: nat, m: nat)
    requires Shifted(before, after, k, n) && m <= k
    ensures Backups(after, m) == Backups(before, m)
  {
    if m > 0 {
      assert ShiftedAt(before, after, k, n, m);
      BackupsBelow(before, after, k, n, m - 1);
    }
  }

  lemma {:induction false} BackupsAbove(before: Files, after: Files, k: nat, n: nat, m: nat)
    requires Shifted(before, after, k, n) && k < m <= n
    ensures Backups(after, m) == Backups(before, m - 1)
  {
    assert ShiftedAt(before, after, k, n, m);
    if m == k + 1 {
      BackupsBelow(before, after, k, n, k);
    } else {
      BackupsAbove(before, after, k, n, m - 1);
    }
  }

  lemma {:induction false} BackupsSame(a: Files, b: Files, m: nat)
    requires forall j: nat | 1 <= j <= m :: Look(a, Backup(j)) == Look(b, Backup(j))
    ensures Backups(a, m) == Backups(b, m)
  {
    if m > 0 {
      assert Look(a, Backup(m)) == Look(b, Backup(m));
      BackupsSame(a, b, m - 1);
    }
  }

  /** Moving the live file down to the vacant backup 1 keeps the history. */
  lemma LiveMoves(files: Files, n: nat, mode: Mode, reopen: bool)
    requires n >= 1 && Live in files && Backup(1) !in files
    ensures History(Reopened(Moved(files, Live, Backup(1)), mode, reopen).files, n) == History(files, n)
  {
    var after := Reopened(Moved(files, Live, Backup(1)), mode, reopen).files;
    LiveUnder(files, after, n);
    assert Get(after, Live) == "";
  }

  lemma {:induction false} LiveUnder(files: Files, after: Files, n: nat)
    requires n >= 1 && Live in files && Backup(1) !in files && Backup(1) in after && after[Backup(1)] == files[Live]
    requires forall j: nat | j > 1 :: Look(after, Backup(j)) == Look(files, Backup(j))
    ensures Backups(after, n) == Backups(files, n) + files[Live]
  {
    if n == 1 {
      assert Backups(after, 0) == "" && Backups(files, 0) == "";
    } else {
      LiveUnder(files, after, n - 1);
      assert Look(after, Backup(n)) == Look(files, Backup(n));
    }
  }

  lemma ShiftKeepsHistory(before: Files, after: Files, k: nat, n: nat)
    requires k < n && Shifted(before, after, k, n)
    ensures History(before, n) == Get(before, Backup(n)) + History(after, n)
  {
    BackupsAbove(before, after, k, n, n);
    assert Get(after, Live) == Get(before, Live);
    assert History(before, n) == (Get(before, Backup(n)) + Backups(before, n - 1)) + Get(before, Live);
  }

  /** Whatever fails on the way, at most the oldest backup goes; the rest of the history stays, in order. */
  lemma RollKeepsHistory(s: Log, n: nat, o: Outcomes, s': Log) returns (lost: string)
    requires Countable(n) && Rolls(s, n, o, s')
    ensures lost == "" || lost == Get(s.files, Backup(n))
    ensures History(s.files, n) == lost + History(s'.files, n)
  {
    lost := "";
    if Backup(n) !in s.files || o.remove {
      lost := Get(s.files, Backup(n));
      var shifted: Files :| RollsBy(s, n, o, s', shifted);
      var k := Stuck(s.files, n - 1, o.rename);
      StuckBelow(s.files, n - 1, o.rename);
      ShiftKeepsHistory(s.files, shifted, k, n);
      if k == 0 && Live in shifted && o.renameLive {
        assert ShiftedAt(s.files, shifted, k, n, 1);
        LiveMoves(shifted, n, s.mode, o.reopen);
      }
    }
  }

  lemma {:induction false} StuckBelow(files: Files, i: int, rename: nat -> bool)
    ensures var k := Stuck(files, i, rename); k == 0 || k <= i
  {
    if i >= 1 { StuckBelow(files, i - 1, rename); }
  }

  /** When nothing fails the live file is the newest backup afterwards and the device is open again. */
  predicate AllSucceed(o: Outcomes, n: nat) {
    o.remove && (forall i: nat | 1 <= i < n :: o.rename(i)) && o.renameLive && o.reopen
  }

  lemma {:induction false} NeverStuck(files: Files, i: int, rename: nat -> bool)
    requires forall j: nat | 1 <= j <= i :: rename(j)
    ensures Stuck(files, i, rename) == 0
  {
    if i >= 1 { NeverStuck(files, i - 1, rename); }
  }

  lemma RollSucceeds(s: Log, n: nat, o: Outcomes, s': Log)
    requires Countable(n) && Rolls(s, n, o, s') && AllSucceed(o, n)
    requires s.mode == Open && Live in s.files
    ensures s'.mode == Open && Look(s'.files, Live) == Some("")
    ensures Look(s'.files, Backup(1)) == Look(s.files, Live)
    ensures forall j: nat | 2 <= j <= n :: Look(s'.files, Backup(j)) == Look(s.files, Backup(j - 1))
    ensures forall j: nat | j == 0 || j > n :: Look(s'.files, Backup(j)) == Look(s.files, Backup(j))
  {
    NeverStuck(s.files, n - 1, o.rename);
    var shifted: Files :| RollsBy(s, n, o, s', shifted);
    assert ShiftedAt(s.files, shifted, 0, n, 1);
    forall j: nat | j != 1
      ensures Look(s'.files, Backup(j)) == Look(s.files, Backup(if 2 <= j <= n then j - 1 else j))
    {
      assert ShiftedAt(s.files, shifted, 0, n, j);
    }
  }

  /** A device that is open after a rotation was open before, and its file is empty. */
  lemma OpenIsEmpty(s: Log, n: nat, o: Outcomes, s': Log)
    requires Rolls(s, n, o, s') && s'.mode == Open
    ensures s.mode == Open && Look(s'.files, Live) == Some("")
  {
  }

  lemma AppendKeepsBackups(s: Log, text: string)
    ensures forall j: nat :: Look(Appended(s, text).files, Backup(j)) == Look(s.files, Backup(j))
  {
  }

  lemma {:induction false} StuckMeans(files: Files, i: int, rename: nat -> bool)
    ensures Stuck(files, i, rename) == 0 <==> forall j: nat | 1 <= j <= i && Backup(j) in files :: rename(j)
  {
    if i >= 1 { StuckMeans(files, i - 1, rename); }
  }

  lemma {:induction false} StuckIs(files: Files, i: int, rename: nat -> bool, k: nat)
    requires 1 <= k <= i && Backup(k) in files && !rename(k)
    requires forall j: nat | k < j <= i && Backup(j) in files :: rename(j)
    ensures Stuck(files, i, rename) == k
    decreases i
  {
    if k < i { StuckIs(files, i - 1, rename, k); }
  }

  /** Nothing that a rotation has to do is refused. */
  predicate NothingRefused(files: Files, n: nat, o: Outcomes) {
    && (Backup(n) in files ==> o.remove)
    && (Countable(n) ==> forall i: nat | 1 <= i < n && Backup(i) in files :: o.rename(i))
    && o.renameLive && o.reopen
  }

  /** For every pattern of failures: the device is open afterwards exactly when it was open, there is a live file,
    * nothing necessary was refused, and backup 1 was vacated or free.
    */
  lemma RollOpens(s: Log, n: nat, o: Outcomes, s': Log)
    requires n != INT_SIZE && Rolls(s, n, o, s')
    ensures s'.mode == Open <==> s.mode == Open && Live in s.files && NothingRefused(s.files, n, o)
                                 && (Countable(n) || Backup(1) !in s.files)
  {
    if Backup(n) !in s.files || o.remove {
      var shifted: Files :| RollsBy(s, n, o, s', shifted);
      StuckMeans(s.files, n - 1, o.rename);
      var k: int := if Countable(n) then Stuck(s.files, n - 1, o.rename) else n as int - 1;
      assert ShiftedAt(s.files, shifted, k, n, 1);
      assert Look(shifted, Live) == Look(s.files, Live);
    }
  }

  /** When the rename of backup k is the first one refused, backups k and below are where they were, those above have
    * moved up, and the device stays closed.
    */
  lemma RollStops(s: Log, n: nat, o: Outcomes, s': Log, k: nat)
    requires Countable(n) && Rolls(s, n, o, s') && (Backup(n) in s.files ==> o.remove)
    requires 1 <= k < n && Backup(k) in s.files && !o.rename(k)
    requires forall j: nat | k < j < n && Backup(j) in s.files :: o.rename(j)
    ensures s'.mode == NotOpen && Look(s'.files, Live) == Look(s.files, Live) && Backup(k + 1) !in s'.files
    ensures forall j: nat | j <= k || j > n :: Look(s'.files, Backup(j)) == Look(s.files, Backup(j))
    ensures forall j: nat | k + 1 < j <= n :: Look(s'.files, Backup(j)) == Look(s.files, Backup(j - 1))
  {
    StuckIs(s.files, n - 1, o.rename, k);
    var shifted: Files :| RollsBy(s, n, o, s', shifted);
    assert ShiftedAt(s.files, shifted, k, n, k + 1);
    forall j: nat | j != k + 1
      ensures Look(s'.files, Backup(j)) == Look(s.files, Backup(if k + 1 < j <= n then j - 1 else j))
    {
      assert ShiftedAt(s.files, shifted, k, n, j);
    }
  }

  /** When every backup has moved up, the live file follows unless its rename is refused; a new one is there only when
    * the device could be opened again.
    */
  lemma RollReaches(s: Log, n: nat, o: Outcomes, s': Log)
    requires Countable(n) && Rolls(s, n, o, s') && (Backup(n) in s.files ==> o.remove) && Live in s.files
    requires forall j: nat | 1 <= j < n && Backup(j) in s.files :: o.rename(j)
    ensures Look(s'.files, Backup(1)) == if o.renameLive then Look(s.files, Live) else None
    ensures Look(s'.files, Live) == if !o.renameLive then Look(s.files, Live)
                                    else if s.mode == Open && o.reopen then Some("") else None
    ensures forall j: nat | 2 <= j <= n :: Look(s'.files, Backup(j)) == Look(s.files, Backup(j - 1))
    ensures forall j: nat | j == 0 || j > n :: Look(s'.files, Backup(j)) == Look(s.files, Backup(j))
  {
    StuckMeans(s.files, n - 1, o.rename);
    var shifted: Files :| RollsBy(s, n, o, s', shifted);
    assert ShiftedAt(s.files, shifted, 0, n, 1);
    forall j: nat | j != 1
      ensures Look(s'.files, Backup(j)) == Look(s.files, Backup(if 2 <= j <= n then j - 1 else j))
    {
      assert ShiftedAt(s.files, shifted, 0, n, j);
    }
  }

  // ---------- whole runs ----------

  datatype Event = Event(text: string, outcomes: Outcomes)

  ghost predicate Run(states: seq<Log>, events: seq<Event>, n: nat, maxFileSize: nat) {
    && |states| == |events| + 1
    && forall i | 0 <= i < |events| ::
         Writes(states[i], events[i].text, n, maxFileSize, events[i].outcomes, states[i + 1])
  }

  /** The text that reached an open device. */
  function Accepted(states: seq<Log>, events: seq<Event>): string
    requires |states| == |events| + 1
  {
    if |events| == 0 then ""
    else Accepted(states[..|events|], events[..|events| - 1])
         + (if states[|events| - 1].mode == Open then events[|events| - 1].text else "")
  }

  function Texts(events: seq<Event>): string {
    if |events| == 0 then "" else Texts(events[..|events| - 1]) + events[|events| - 1].text
  }

  lemma AppendedHistory(s: Log, text: string, n: nat)
    ensures History(Appended(s, text).files, n) == History(s.files, n) + if s.mode == Open then text else ""
  {
    BackupsSame(s.files, Appended(s, text).files, n);
  }

  lemma WriteKeepsHistory(s: Log, text: string, n: nat, maxFileSize: nat, o: Outcomes, s': Log) returns (lost: string)
    requires Countable(n) && Writes(s, text, n, maxFileSize, o, s')
    ensures lost == "" || lost == Get(s.files, Backup(n))
    ensures History(s.files, n) + (if s.mode == Open then text else "") == lost + History(s'.files, n)
  {
    var t := Appended(s, text);
    AppendedHistory(s, text, n);
    lost := "";
    if |Get(t.files, Live)| > maxFileSize {
      lost := RollKeepsHistory(t, n, o, s');
    }
  }

  /** Under any pattern of failures the files hold, in order, all that was accepted but a lost beginning. */
  lemma {:induction false} HistoryIsSuffix(states: seq<Log>, events: seq<Event>, n: nat, maxFileSize: nat)
    returns (lost: string)
    requires Countable(n) && Run(states, events, n, maxFileSize)
    ensures History(states[0].files, n) + Accepted(states, events) == lost + History(states[|events|].files, n)
  {
    if |events| == 0 {
      lost := "";
    } else {
      var m := |events| - 1;
      var e := events[m];
      assert states[..m + 1][0] == states[0] && states[..m + 1][m] == states[m];
      RunPrefix(states, events, n, maxFileSize);
      var l := HistoryIsSuffix(states[..m + 1], events[..m], n, maxFileSize);
      var l' := WriteKeepsHistory(states[m], e.text, n, maxFileSize, e.outcomes, states[m + 1]);
      lost := l + l';
      Regroup(History(states[0].files, n), Accepted(states[..m + 1], events[..m]),
              if states[m].mode == Open then e.text else "", l, History(states[m].files, n), l',
              History(states[m + 1].files, n));
    }
  }

  lemma RunPrefix(states: seq<Log>, events: seq<Event>, n: nat, maxFileSize: nat)
    requires Run(states, events, n, maxFileSize) && |events| > 0
    ensures var m := |events| - 1; Run(states[..m + 1], events[..m], n, maxFileSize)
  {
  }

  lemma Regroup(start: string, accepted: string, now: string, l: string, middle: string, l': string, end: string)
    requires start + accepted == l + middle && middle + now == l' + end
    ensures start + (accepted + now) == (l + l') + end
  {
    assert start + (accepted + now) == (l + middle) + now;
    assert (l + middle) + now == l + (middle + now);
  }

  /** A device that is closed stays closed, because it is reopened in the mode it was found in; nothing is logged. */
  lemma {:induction false} ClosedForGood(states: seq<Log>, events: seq<Event>, n: nat, maxFileSize: nat)
    requires Run(states, events, n, maxFileSize) && states[0].mode == NotOpen
    ensures states[|events|].mode == NotOpen && Accepted(states, events) == ""
  {
    if |events| > 0 {
      RunPrefix(states, events, n, maxFileSize);
      ClosedForGood(states[..|events|], events[..|events| - 1], n, maxFileSize);
    }
  }

  predicate AllGood(events: seq<Event>, n: nat) {
    forall i | 0 <= i < |events| :: AllSucceed(events[i].outcomes, n)
  }

  lemma {:induction false} StaysOpen(states: seq<Log>, events: seq<Event>, n: nat, maxFileSize: nat)
    requires Countable(n) && Run(states, events, n, maxFileSize) && AllGood(events, n)
    requires states[0].mode == Open && Live in states[0].files
    ensures states[|events|].mode == Open && Live in states[|events|].files
    ensures Accepted(states, events) == Texts(events)
  {
    if |events| > 0 {
      var m := |events| - 1;
      RunPrefix(states, events, n, maxFileSize);
      StaysOpen(states[..m + 1], events[..m], n, maxFileSize);
      WriteStaysOpen(states[m], events[m].text, n, maxFileSize, events[m].outcomes, states[m + 1]);
    }
  }

  lemma WriteStaysOpen(s: Log, text: string, n: nat, maxFileSize: nat, o: Outcomes, s': Log)
    requires Countable(n) && Writes(s, text, n, maxFileSize, o, s') && AllSucceed(o, n)
    requires s.mode == Open && Live in s.files
    ensures s'.mode == Open && Live in s'.files
  {
    var t := Appended(s, text);
    if |Get(t.files, Live)| > maxFileSize {
      RollSucceeds(t, n, o, s');
    }
  }

  /** When nothing fails, the backups and the live file hold a suffix of everything ever logged. */
  lemma NothingLostInside(states: seq<Log>, events: seq<Event>, n: nat, maxFileSize: nat) returns (lost: string)
    requires Countable(n) && Run(states, events, n, maxFileSize) && AllGood(events, n)
    requires states[0] == Log(map[Live := ""], Open)
    ensures Texts(events) == lost + History(states[|events|].files, n)
  {
    StaysOpen(states, events, n, maxFileSize);
    lost := HistoryIsSuffix(states, events, n, maxFileSize);
    BackupsEmpty(states[0].files, n);
  }

  lemma {:induction false} BackupsEmpty(files: Files, n: nat)
    requires forall j: nat | 1 <= j <= n :: Backup(j) !in files
    ensures Backups(files, n) == ""
  {
    if n > 0 { BackupsEmpty(files, n - 1); }
  }

  /** Exactly when a rotation with no failing operation works: the count is one the loop can run over, or backup 1 is
    * free. With no backups, or more than an int holds, the next rotation closes the device for good.
    */
  lemma RollsExactly(s: Log, n: nat, o: Outcomes, s': Log)
    requires n != INT_SIZE && Rolls(s, n, o, s') && AllSucceed(o, n)
    requires s.mode == Open && Live in s.files
    ensures s'.mode == Open <==> Countable(n) || Backup(1) !in s.files
  {
    if Countable(n) {
      RollSucceeds(s, n, o, s');
    } else {
      var shifted: Files :| RollsBy(s, n, o, s', shifted);
      assert ShiftedAt(s.files, shifted, n as int - 1, n, 1);
    }
  }

  /** With no backups the second rotation closes the device, though no operation is refused. */
  lemma NoBackups(o: Outcomes)
    requires AllSucceed(o, 0)
    ensures var files := map[Live := "new", Backup(1) := "old"];
            Rolls(Log(files, Open), 0, o, Log(files, NotOpen))
  {
    var files := map[Live := "new", Backup(1) := "old"];
    assert RollsBy(Log(files, Open), 0, o, Log(files, NotOpen), files);
  }
}
