/**
 The exception log of `vcom_monitor_dbg.h`: a window of 1024 characters at the start of a shared page. It shows a status
 field as wide as the longest status so far, and behind it the exceptions, newest first, as many as fit.
 */
module Monitor {
  import opened Memory

  const MSIZE := 1024
  const PAGE := 4096
  const TMP_LEN := 64
  const CUTTER := "> "

  /** The last status, the width of the status field, and all exceptions recorded, newest first. */
  datatype Log = Log(status: string, width: nat, entries: seq<string>)

  const EMPTY_LOG := Log("", 0, [])

  datatype Maybe = None | Some(text: string)

  /** One call of `mon_update`; only an exception with the signal flag is recorded. */
  datatype Update = Update(status: string, sig: bool, dbg: Maybe)

  predicate Fits(u: Update) { |u.status| < TMP_LEN && (u.dbg.Some? ==> |CUTTER| + |u.dbg.text| < TMP_LEN) }

  function Updated(l: Log, u: Update): Log {
    Log(u.status, if |u.status| > l.width then |u.status| else l.width,
        if u.sig && u.dbg.Some? then [u.dbg.text] + l.entries else l.entries)
  }

  function Spaces(n: nat): (s: string)
    ensures |s| == n
  {
    seq(n, _ => ' ')
  }

  function Entry(e: string): string { CUTTER + e + " " }

  function History(entries: seq<string>): string {
    if entries == [] then "" else Entry(entries[0]) + History(entries[1..])
  }

  /** A status shorter than its field is followed by the terminator of `snprintf`, then by spaces. */
  function Field(status: string, width: nat): (s: string)
    requires |status| <= width
    ensures |s| == width
  {
    if |status| == width then status else status + ['\0'] + Spaces(width - |status| - 1)
  }

  /** The first `n` characters of the history, filled up with spaces. */
  function Visible(entries: seq<string>, n: nat): (s: string)
    ensures |s| == n
  {
    (History(entries) + Spaces(n))[..n]
  }

  /** What the window shows. */
  function Window(l: Log): (s: string)
    requires |l.status| <= l.width <= MSIZE
    ensures |s| == MSIZE
  {
    Field(l.status, l.width) + Visible(l.entries, MSIZE - l.width)
  }

  lemma VisibleLess(entries: seq<string>, n: nat, m: nat)
    requires m <= n
    ensures Visible(entries, n)[..m] == Visible(entries, m)
  {
    var h := History(entries);
    if m <= |h| {
      assert (h + Spaces(n))[..m] == h[..m] == (h + Spaces(m))[..m];
    } else {
      assert Spaces(n)[..m - |h|] == Spaces(m)[..m - |h|];
      assert (h + Spaces(n))[..m] == h + Spaces(n)[..m - |h|];
      assert (h + Spaces(m))[..m] == h + Spaces(m)[..m - |h|];
    }
  }

  /** Recording an exception shifts what was visible by the length of the entry. */
  lemma VisibleMore(e: string, entries: seq<string>, n: nat)
    requires |Entry(e)| <= n
    ensures Visible([e] + entries, n) == Entry(e) + Visible(entries, n - |Entry(e)|)
  {
    var (x, h) := (Entry(e), History(entries));
    assert ([e] + entries)[1..] == entries;
    assert History([e] + entries) == x + h;
    VisibleLess(entries, n, n - |x|);
    assert (x + h + Spaces(n))[..n] == x + (h + Spaces(n))[..n - |x|];
  }

  lemma TwoEntries(newest: string, older: string)
    ensures History([newest, older]) == "> " + newest + " " + "> " + older + " "
  {
    var entries := [newest, older];
    assert entries[1..] == [older] && [older][1..] == [];
    assert History([older]) == Entry(older) + History([]) == Entry(older);
    assert History(entries) == Entry(newest) + Entry(older);
    assert Entry(newest) + Entry(older) == "> " + newest + " " + "> " + older + " ";
  }

  /**
   How a window reads, character by character: the status; if it is shorter than its field a terminator and spaces; then each
   exception behind "> " and in front of a space, newest first; then spaces.
   */
  lemma WindowReads(l: Log, newest: string, older: string)
    requires |l.status| <= l.width && l.entries == [newest, older] && l.width + |newest| + |older| + 6 <= MSIZE
    ensures var rest := "> " + newest + " " + "> " + older + " ";
            var w := Window(l);
            && w[..|l.status|] == l.status
            && (|l.status| < l.width ==> w[|l.status|] == '\0' && forall k :: |l.status| < k < l.width ==> w[k] == ' ')
            && w[l.width..l.width + |rest|] == rest
            && forall k :: l.width + |rest| <= k < MSIZE ==> w[k] == ' '
  {
    var rest := "> " + newest + " " + "> " + older + " ";
    TwoEntries(newest, older);
    var h := rest + Spaces(MSIZE - l.width);
    assert Window(l) == Field(l.status, l.width) + h[..MSIZE - l.width];
    assert Window(l)[l.width..] == h[..MSIZE - l.width];
    assert Window(l)[l.width..l.width + |rest|] == h[..|rest|] == rest;
  }

  // ----- the window after the copies of mon_update

  /** A page after `memmove(&page[to], &page[from], n)`. */
  function Moved(page: string, to: nat, from: nat, n: nat): (r: string)
    requires to + n <= |page| && from + n <= |page|
    ensures |r| == |page|
  {
    Splice(page, to, page[from..from + n])
  }

  lemma SubSlice(page: string, from: nat, n: nat, m: nat)
    requires from + n <= |page| && m <= n
    ensures page[from..from + n][..m] == page[from..from + m]
  {
  }

  lemma ThreePieces(page: string, a: nat, b: nat, c: nat)
    requires a <= b <= c <= |page|
    ensures page[..c] == page[..a] + (page[a..b] + page[b..c])
  {
  }

  predicate Shows(page: string, l: Log) {
    |page| == PAGE && |l.status| <= l.width < TMP_LEN && page[..MSIZE] == Window(l)
  }

  /** The buffer that holds a status holds the whole field. */
  lemma FieldInTmp(tmp: string, status: string, width: nat)
    requires |status| <= width < TMP_LEN && tmp == status + ['\0'] + Spaces(TMP_LEN - |status| - 1)
    ensures tmp[..width] == Field(status, width)
  {
    forall i | 0 <= i < width ensures tmp[i] == Field(status, width)[i] {
    }
  }

  /** What of the history a page shows. */
  lemma HistoryPart(page: string, l: Log, from: nat, n: nat)
    requires Shows(page, l) && l.width + n <= MSIZE && from == l.width
    ensures page[from..from + n] == Visible(l.entries, n)
  {
    hide Visible, Field;
    VisibleLess(l.entries, MSIZE - l.width, n);
    assert page[..MSIZE][from..] == page[from..MSIZE];
    SubSlice(page, from, MSIZE - from, n);
    assert page[from..MSIZE] == Visible(l.entries, MSIZE - l.width);
  }

  /** A status wider than the field moves the history back and takes the place gained. */
  lemma Widened(page: string, l: Log, status: string)
    requires Shows(page, l) && l.width < |status| < TMP_LEN
    ensures Shows(Splice(Moved(page, |status|, l.width, MSIZE - |status|), 0, Field(status, |status|)), Log(status, |status|, l.entries))
  {
    hide Visible;
    HistoryPart(page, l, l.width, MSIZE - |status|);
  }

  /** A status that fits overwrites the field and nothing else. */
  lemma Refreshed(page: string, l: Log, status: string)
    requires Shows(page, l) && |status| <= l.width
    ensures Shows(Splice(page, 0, Field(status, l.width)), Log(status, l.width, l.entries))
  {
    hide Visible, Field;
    HistoryPart(page, l, l.width, MSIZE - l.width);
  }

  /** A page in which there is room for an entry between the field and the history. */
  predicate Roomy(moved: string, page: string, l: Log, dbg: string) {
    var next := l.width + |Entry(dbg)|;
    && next <= MSIZE && |moved| == |page| == PAGE
    && moved[..l.width] == page[..l.width] && moved[next..MSIZE] == Visible(l.entries, MSIZE - next)
  }

  /** The history moves back by the length of an entry, and the entry is written in front of it. */
  lemma Prepended(page: string, moved: string, l: Log, dbg: string)
    requires Shows(page, l) && |Entry(dbg)| <= TMP_LEN && Roomy(moved, page, l, dbg)
    ensures Shows(Splice(Splice(moved, l.width, CUTTER + dbg), l.width + |CUTTER + dbg|, " "), l.(entries := [dbg] + l.entries))
  {
    hide Visible, Field, History, Splice;
    var next := l.width + |Entry(dbg)|;
    VisibleMore(dbg, l.entries, MSIZE - l.width);
    SpliceTwice(moved, l.width, CUTTER + dbg, " ");
    var last := Splice(moved, l.width, Entry(dbg));
    SpliceFrame(moved, l.width, Entry(dbg), 0, l.width);
    SplicePart(moved, l.width, Entry(dbg), |Entry(dbg)|);
    SpliceFrame(moved, l.width, Entry(dbg), next, MSIZE);
    ThreePieces(last, l.width, next, MSIZE);
    assert last[..l.width] == last[0..l.width] && page[..l.width] == moved[0..l.width];
    assert Entry(dbg)[..|Entry(dbg)|] == Entry(dbg);
    FieldPart(page, l);
  }

  lemma FieldPart(page: string, l: Log)
    requires Shows(page, l)
    ensures page[..l.width] == Field(l.status, l.width)
  {
    hide Visible, Field;
    assert page[..l.width] == page[..MSIZE][..l.width];
  }

  /** The move of `mon_update` reaches beyond the window, but what it puts into the window is the history. */
  lemma MovedBack(page: string, l: Log, dbg: string)
    requires Shows(page, l) && |Entry(dbg)| <= TMP_LEN
    ensures Roomy(Moved(page, l.width + |Entry(dbg)|, l.width, MSIZE - |l.status| - |CUTTER + dbg|), page, l, dbg)
  {
    hide Visible, Field, History, Window, Splice;
    var (next, n) := (l.width + |Entry(dbg)|, MSIZE - |l.status| - |CUTTER + dbg|);
    HistoryPart(page, l, l.width, MSIZE - next);
    SplicePart(page, next, page[l.width..l.width + n], MSIZE - next);
    SpliceFrame(page, next, page[l.width..l.width + n], 0, l.width);
    var moved := Moved(page, next, l.width, n);
    assert moved[0..l.width] == moved[..l.width] && page[0..l.width] == page[..l.width];
    SubSlice(page, l.width, n, MSIZE - next);
  }

  /** Before the first exception there is nothing to move. */
  lemma NothingToMove(page: string, l: Log, dbg: string)
    requires Shows(page, l) && |Entry(dbg)| <= TMP_LEN && l.entries == []
    ensures Roomy(page, page, l, dbg)
  {
    HistoryPart(page, l, l.width, MSIZE - l.width);
    var next := l.width + |Entry(dbg)|;
    assert page[next..MSIZE] == page[l.width..MSIZE][|Entry(dbg)|..];
    assert Visible(l.entries, MSIZE - l.width) == Spaces(MSIZE - l.width);
    assert Visible(l.entries, MSIZE - next) == Spaces(MSIZE - next);
  }

  /** The local buffer `tmp` after `memset` and `snprintf`. */
  method Sprint(text: string) returns (tmp: array<char>)
    requires |text| < TMP_LEN
    ensures fresh(tmp) && tmp.Length == TMP_LEN && tmp[..] == text + ['\0'] + Spaces(TMP_LEN - |text| - 1)
  {
    tmp := new char[TMP_LEN](_ => ' ');
    assert tmp[|text| + 1..] == Spaces(TMP_LEN - |text| - 1) && tmp[..0] == "";
    Memcpy(tmp, 0, text + ['\0']);
  }

  class VcMonitor {
    const addr: array<char>
    var maxStatl: nat
    var dbgFirst: bool
    ghost var log: Log

    ghost predicate Valid()
      reads this, addr
    {
      && Shows(addr[..], log) && addr.Length == PAGE
      && |log.status| <= maxStatl == log.width < TMP_LEN && (dbgFirst <==> log.entries == [])
    }

    /** `mon_init`. */
    constructor ()
      ensures Valid() && fresh(addr) && log == EMPTY_LOG
    {
      addr := new char[PAGE](_ => ' ');
      maxStatl, dbgFirst, log := 0, true, EMPTY_LOG;
      new;
      assert addr[..MSIZE] == Spaces(MSIZE);
    }

    /** The first half of `mon_update`: widen the field if the status needs it, then overwrite the field. */
    method ShowStatus(status: string)
      requires Valid() && |status| < TMP_LEN
      modifies this`maxStatl, this`log, addr
      ensures Valid() && log == Updated(old(log), Update(status, false, None))
    {
      hide Shows, Field, Splice;
      var tmp := Sprint(status);
      ghost var page := addr[..];
      var statl := |status|;
      if statl > maxStatl {
        Widened(page, log, status);
        Memmove(addr, statl, maxStatl, MSIZE - statl);
        maxStatl := statl;
      } else {
        Refreshed(page, log, status);
      }
      log := Updated(log, Update(status, false, None));
      FieldInTmp(tmp[..], status, maxStatl);
      ghost var moved := addr[..];
      Memcpy(addr, 0, tmp[..maxStatl]);
    }

    /** Room for an entry in front of the history; before the first exception there is nothing to move. */
    method MakeRoom(statl: nat, ghost dbg: string, dbgl: nat)
      requires Valid() && dbgl == |CUTTER + dbg| < TMP_LEN && statl == |log.status|
      modifies this`dbgFirst, addr
      ensures Roomy(addr[..], old(addr[..]), log, dbg) && !dbgFirst
    {
      hide Roomy, Visible, Window, Field, Splice;
      var ptr := maxStatl;
      ghost var page := addr[..];
      if !dbgFirst {
        MovedBack(page, log, dbg);
        Memmove(addr, ptr + dbgl + 1, ptr, MSIZE - statl - dbgl);
      } else {
        NothingToMove(page, log, dbg);
        dbgFirst := false;
      }
    }

    /** The second half: move the entries back and put the new one in front. */
    method Record(dbg: string, statl: nat)
      requires Valid() && |CUTTER + dbg| < TMP_LEN && statl == |log.status|
      modifies this`dbgFirst, this`log, addr
      ensures Valid() && log == old(log).(entries := [dbg] + old(log).entries)
    {
      hide Roomy, Visible, Window, Field, Splice;
      var tmp := Sprint(CUTTER + dbg);
      var dbgl := |CUTTER + dbg|;
      var text := tmp[..dbgl];
      assert text == CUTTER + dbg;
      ghost var page := addr[..];
      MakeRoom(statl, dbg, dbgl);
      ghost var moved := addr[..];
      Prepended(page, moved, log, dbg);
      Memcpy(addr, maxStatl, text);
      ghost var first := addr[..];
      Memcpy(addr, maxStatl + dbgl, " ");
      log := log.(entries := [dbg] + log.entries);
    }

    /** `mon_update`. */
    method MonUpdate(u: Update)
      requires Valid() && Fits(u)
      modifies this`maxStatl, this`dbgFirst, this`log, addr
      ensures Valid() && log == Updated(old(log), u)
    {
      ShowStatus(u.status);
      if u.dbg.Some? && u.sig {
        Record(u.dbg.text, |u.status|);
      }
    }
  }

  // ----- any number of updates

  function After(l: Log, us: seq<Update>): Log
    decreases |us|
  {
    if us == [] then l else After(Updated(l, us[0]), us[1..])
  }

  /** The exceptions that were signalled, newest first. */
  function Exceptions(us: seq<Update>): seq<string> {
    if us == [] then []
    else if us[0].sig && us[0].dbg.Some? then Exceptions(us[1..]) + [us[0].dbg.text]
    else Exceptions(us[1..])
  }

  lemma Regroup(older: seq<string>, one: seq<string>, newer: seq<string>)
    ensures newer + (one + older) == (newer + one) + older
  {
  }

  /** The log holds every exception since the start, newest first. */
  lemma {:induction false} LogIsComplete(l: Log, us: seq<Update>)
    ensures After(l, us).entries == Exceptions(us) + l.entries
    decreases |us|
  {
    if us == [] {
      assert [] + l.entries == l.entries;
    } else {
      LogIsComplete(Updated(l, us[0]), us[1..]);
      if us[0].sig && us[0].dbg.Some? {
        Regroup(l.entries, [us[0].dbg.text], Exceptions(us[1..]));
      }
    }
  }

  /** The field shows the latest status, and is as wide as the longest status it has held. */
  lemma {:induction false} FieldFitsEveryStatus(l: Log, us: seq<Update>)
    ensures var m := After(l, us);
            && m.status == (if us == [] then l.status else us[|us| - 1].status)
            && m.width >= l.width && (forall u :: u in us ==> |u.status| <= m.width)
            && (m.width == l.width || exists u :: u in us && m.width == |u.status|)
    decreases |us|
  {
    if us != [] {
      FieldFitsEveryStatus(Updated(l, us[0]), us[1..]);
      assert us == [us[0]] + us[1..];
    }
  }

  function LastStatus(us: seq<Update>): string { if us == [] then "" else us[|us| - 1].status }

  function Widest(us: seq<Update>): nat {
    if us == [] then 0
    else if |us[0].status| > Widest(us[1..]) then |us[0].status|
    else Widest(us[1..])
  }

  lemma {:induction false} WidthIsWidest(l: Log, us: seq<Update>)
    ensures After(l, us).width == if Widest(us) > l.width then Widest(us) else l.width
    decreases |us|
  {
    if us != [] {
      WidthIsWidest(Updated(l, us[0]), us[1..]);
    }
  }

  /** The log since `mon_init`, said without the updates in between. */
  lemma LogSinceStart(us: seq<Update>)
    ensures After(EMPTY_LOG, us) == Log(LastStatus(us), Widest(us), Exceptions(us))
  {
    hide Updated, Exceptions, Widest;
    LogIsComplete(EMPTY_LOG, us);
    FieldFitsEveryStatus(EMPTY_LOG, us);
    WidthIsWidest(EMPTY_LOG, us);
    assert Exceptions(us) + [] == Exceptions(us);
  }

  /**
   The log as a program, from `mon_init` through any number of updates: the window shows the latest status in a field as
   wide as the widest status so far, and behind it every signalled exception, newest first, as far as 1024 characters go.
   */
  method MonLog(us: seq<Update>) returns (mon: VcMonitor)
    requires forall i :: 0 <= i < |us| ==> Fits(us[i])
    ensures mon.Valid() && |LastStatus(us)| <= Widest(us) < TMP_LEN
    ensures mon.addr[..MSIZE] == Window(Log(LastStatus(us), Widest(us), Exceptions(us)))
  {
    hide Updated, Window;
    mon := new VcMonitor();
    var i := 0;
    while i < |us|
      invariant 0 <= i <= |us| && mon.Valid() && fresh(mon) && fresh(mon.addr)
      invariant After(mon.log, us[i..]) == After(EMPTY_LOG, us)
    {
      mon.MonUpdate(us[i]);
      assert us[i..][1..] == us[i + 1..];
      i := i + 1;
    }
    LogSinceStart(us);
    assert mon.log == After(mon.log, us[|us|..]);
    assert mon.addr[..MSIZE] == mon.addr[..][..MSIZE];
  }
}
