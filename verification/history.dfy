/**
 History trimming: every System turn is kept, plus at most the
 `MaxNonSystemTurns` most recent non-System turns, in their original order.
 */
module History {
  import opened Types

  /** `availableNonSystemMessageCount` in `toChatCompletionRequestMessages`. */
  const MaxNonSystemTurns: nat := 13

  predicate IsSystem(t: Turn) {
    t.role == System
  }

  /** The System turns of `s`, in order. */
  function SystemTurns(s: seq<Turn>): seq<Turn> {
    if |s| == 0 then []
    else (if IsSystem(s[0]) then [s[0]] else []) + SystemTurns(s[1..])
  }

  /** The non-System (User and Assistant) turns of `s`, in order. */
  function NonSystemTurns(s: seq<Turn>): seq<Turn> {
    if |s| == 0 then []
    else (if IsSystem(s[0]) then [] else [s[0]]) + NonSystemTurns(s[1..])
  }

  function CountNonSystem(s: seq<Turn>): nat {
    |NonSystemTurns(s)|
  }

  /** The last `min(|q|, k)` elements of `q`. */
  function LastN(q: seq<Turn>, k: nat): seq<Turn> {
    if |q| <= k then q else q[|q| - k..]
  }

  /** `a` is obtained from `b` by deleting elements. */
  predicate IsSubsequence(a: seq<Turn>, b: seq<Turn>)
    decreases |b|
  {
    if |a| == 0 then true
    else if |b| == 0 then false
    else (a[0] == b[0] && IsSubsequence(a[1..], b[1..])) || IsSubsequence(a, b[1..])
  }

  // ---------------------------------------------------------------------
  // The algorithm as written: indices of non-System turns, the oldest
  // `count - k` of them as a drop set, then a filter over positions.
  // ---------------------------------------------------------------------

  /** The positions (offset by `base`) of the non-System turns of `s`, ascending. */
  function NonSystemIndices(s: seq<Turn>, base: nat): (r: seq<nat>)
    ensures |r| == CountNonSystem(s)
    ensures forall j :: 0 <= j < |r| ==> base <= r[j] < base + |s|
    ensures forall j :: 0 <= j < |r| ==> !IsSystem(s[r[j] - base])
    ensures forall j, j' :: 0 <= j < j' < |r| ==> r[j] < r[j']
  {
    if |s| == 0 then []
    else (if IsSystem(s[0]) then [] else [base]) + NonSystemIndices(s[1..], base + 1)
  }

  /** The turns of `s` whose position (offset by `base`) is not in `drop`. */
  function SelectKept(s: seq<Turn>, drop: set<nat>, base: nat): seq<Turn> {
    if |s| == 0 then []
    else (if base in drop then [] else [s[0]]) + SelectKept(s[1..], drop, base + 1)
  }

  /** `new Set(q)`. */
  function IndexSet(q: seq<nat>): (r: set<nat>)
    ensures forall i :: i in r <==> i in q
  {
    set i | i in q
  }

  /** The trimming of `toChatCompletionRequestMessages` for a bound `k`. */
  function DropOldest(s: seq<Turn>, k: nat): seq<Turn> {
    var idx := NonSystemIndices(s, 0);
    if |idx| <= k then s
    else SelectKept(s, IndexSet(idx[..|idx| - k]), 0)
  }

  // ---------------------------------------------------------------------
  // Reference definition: a non-System turn survives exactly when fewer
  // than `k` non-System turns come after it.
  // ---------------------------------------------------------------------

  function KeepRecent(s: seq<Turn>, k: nat): seq<Turn> {
    if |s| == 0 then []
    else if IsSystem(s[0]) || CountNonSystem(s[1..]) < k then [s[0]] + KeepRecent(s[1..], k)
    else KeepRecent(s[1..], k)
  }

  lemma {:induction false} SelectKeptNothing(s: seq<Turn>, drop: set<nat>, base: nat)
    requires forall i :: base <= i < base + |s| ==> i !in drop
    ensures SelectKept(s, drop, base) == s
    decreases |s|
  {
    if |s| > 0 {
      SelectKeptNothing(s[1..], drop, base + 1);
    }
  }

  /** Only positions inside the window matter to `SelectKept`. */
  lemma {:induction false} SelectKeptAgree(s: seq<Turn>, d1: set<nat>, d2: set<nat>, base: nat)
    requires forall i :: base <= i < base + |s| ==> (i in d1 <==> i in d2)
    ensures SelectKept(s, d1, base) == SelectKept(s, d2, base)
    decreases |s|
  {
    if |s| > 0 {
      SelectKeptAgree(s[1..], d1, d2, base + 1);
    }
  }

  lemma {:induction false} KeepRecentAll(s: seq<Turn>, k: nat)
    requires CountNonSystem(s) <= k
    ensures KeepRecent(s, k) == s
    decreases |s|
  {
    if |s| > 0 {
      KeepRecentAll(s[1..], k);
    }
  }

  /** A leading System turn is never in the drop set, which is the drop
      set of the rest of the transcript. */
  lemma SelectKeptSystemHead(s: seq<Turn>, base: nat, m: nat)
    requires |s| > 0 && IsSystem(s[0]) && m <= CountNonSystem(s)
    ensures m <= CountNonSystem(s[1..])
    ensures SelectKept(s, IndexSet(NonSystemIndices(s, base)[..m]), base)
         == [s[0]] + SelectKept(s[1..], IndexSet(NonSystemIndices(s[1..], base + 1)[..m]), base + 1)
  {
    var idx := NonSystemIndices(s[1..], base + 1);
    assert NonSystemIndices(s, base) == idx;
    var drop := IndexSet(idx[..m]);
    assert base !in drop by {
      forall j | 0 <= j < m
        ensures idx[..m][j] != base
      {
        assert idx[..m][j] == idx[j];
      }
    }
  }

  /** A leading non-System turn is the oldest one: with `m > 0` it is
      dropped, and the other `m - 1` positions come from the rest. */
  lemma SelectKeptDroppedHead(s: seq<Turn>, base: nat, m: nat)
    requires |s| > 0 && !IsSystem(s[0]) && 0 < m <= CountNonSystem(s)
    ensures m - 1 <= CountNonSystem(s[1..])
    ensures SelectKept(s, IndexSet(NonSystemIndices(s, base)[..m]), base)
         == SelectKept(s[1..], IndexSet(NonSystemIndices(s[1..], base + 1)[..m - 1]), base + 1)
  {
    var idx := NonSystemIndices(s, base);
    var idx1 := NonSystemIndices(s[1..], base + 1);
    assert idx == [base] + idx1;
    assert idx[..m] == [base] + idx1[..m - 1];
    var drop := IndexSet(idx[..m]);
    var drop1 := IndexSet(idx1[..m - 1]);
    assert base in drop;
    SelectKeptAgree(s[1..], drop, drop1, base + 1);
  }

  /** Dropping the oldest `m` non-System positions keeps the turns with
      fewer than `count - m` non-System turns after them. */
  lemma {:induction false} DropFirstIndices(s: seq<Turn>, base: nat, m: nat)
    requires m <= CountNonSystem(s)
    ensures SelectKept(s, IndexSet(NonSystemIndices(s, base)[..m]), base)
         == KeepRecent(s, CountNonSystem(s) - m)
    decreases |s|
  {
    if |s| == 0 {
    } else if IsSystem(s[0]) {
      SelectKeptSystemHead(s, base, m);
      DropFirstIndices(s[1..], base + 1, m);
    } else if m == 0 {
      SelectKeptNothing(s, IndexSet(NonSystemIndices(s, base)[..m]), base);
      KeepRecentAll(s, CountNonSystem(s));
    } else {
      SelectKeptDroppedHead(s, base, m);
      DropFirstIndices(s[1..], base + 1, m - 1);
    }
  }

  /** The algorithm as written agrees with the reference definition. */
  lemma DropOldestIsKeepRecent(s: seq<Turn>, k: nat)
    ensures DropOldest(s, k) == KeepRecent(s, k)
  {
    var n := CountNonSystem(s);
    if n <= k {
      KeepRecentAll(s, k);
    } else {
      DropFirstIndices(s, 0, n - k);
    }
  }

  // ---------------------------------------------------------------------
  // Properties of the reference definition.
  // ---------------------------------------------------------------------

  lemma {:induction false} SplitCounts(s: seq<Turn>)
    ensures |SystemTurns(s)| + |NonSystemTurns(s)| == |s|
    decreases |s|
  {
    if |s| > 0 {
      SplitCounts(s[1..]);
    }
  }

  lemma {:induction false} KeepRecentSystemTurns(s: seq<Turn>, k: nat)
    ensures SystemTurns(KeepRecent(s, k)) == SystemTurns(s)
    decreases |s|
  {
    if |s| > 0 {
      var rest := KeepRecent(s[1..], k);
      KeepRecentSystemTurns(s[1..], k);
      if IsSystem(s[0]) || CountNonSystem(s[1..]) < k {
        assert ([s[0]] + rest)[1..] == rest;
      }
    }
  }

  lemma {:induction false} KeepRecentNonSystemTurns(s: seq<Turn>, k: nat)
    ensures NonSystemTurns(KeepRecent(s, k)) == LastN(NonSystemTurns(s), k)
    decreases |s|
  {
    if |s| > 0 {
      var rest := KeepRecent(s[1..], k);
      var q1 := NonSystemTurns(s[1..]);
      KeepRecentNonSystemTurns(s[1..], k);
      if IsSystem(s[0]) {
        assert ([s[0]] + rest)[1..] == rest;
      } else if |q1| < k {
        assert ([s[0]] + rest)[1..] == rest;
      } else {
        assert NonSystemTurns(s) == [s[0]] + q1;
        assert ([s[0]] + q1)[|q1| + 1 - k..] == q1[|q1| - k..];
      }
    }
  }

  lemma {:induction false} KeepRecentSubsequence(s: seq<Turn>, k: nat)
    ensures IsSubsequence(KeepRecent(s, k), s)
    decreases |s|
  {
    if |s| > 0 {
      var rest := KeepRecent(s[1..], k);
      KeepRecentSubsequence(s[1..], k);
      if IsSystem(s[0]) || CountNonSystem(s[1..]) < k {
        assert ([s[0]] + rest)[1..] == rest;
      }
    }
  }

  // ---------------------------------------------------------------------
  // The trimming applied by the relay.
  // ---------------------------------------------------------------------

  /** Keeps every System turn and exactly the last `MaxNonSystemTurns`
      non-System turns (all of them when there are no more), deleting
      the rest without reordering; below the bound nothing changes. */
  function TrimHistory(turns: seq<Turn>): (r: seq<Turn>)
    ensures SystemTurns(r) == SystemTurns(turns)
    ensures NonSystemTurns(r) == LastN(NonSystemTurns(turns), MaxNonSystemTurns)
    ensures IsSubsequence(r, turns)
    ensures CountNonSystem(turns) <= MaxNonSystemTurns ==> r == turns
    ensures r == KeepRecent(turns, MaxNonSystemTurns)
  {
    DropOldestIsKeepRecent(turns, MaxNonSystemTurns);
    KeepRecentSystemTurns(turns, MaxNonSystemTurns);
    KeepRecentNonSystemTurns(turns, MaxNonSystemTurns);
    KeepRecentSubsequence(turns, MaxNonSystemTurns);
    DropOldest(turns, MaxNonSystemTurns)
  }

  /** The trimmed transcript holds all System turns plus
      `min(count, MaxNonSystemTurns)` others. */
  lemma TrimHistoryLength(turns: seq<Turn>)
    ensures |TrimHistory(turns)| == |SystemTurns(turns)|
      + (if CountNonSystem(turns) <= MaxNonSystemTurns then CountNonSystem(turns) else MaxNonSystemTurns)
  {
    SplitCounts(TrimHistory(turns));
  }

  /** Trimming twice is trimming once. */
  lemma TrimHistoryIdempotent(turns: seq<Turn>)
    ensures TrimHistory(TrimHistory(turns)) == TrimHistory(turns)
  {
  }

  /** A transcript that opens with a System turn still does after trimming. */
  lemma TrimHistoryKeepsLeadingSystem(turns: seq<Turn>)
    requires |turns| > 0 && IsSystem(turns[0])
    ensures |TrimHistory(turns)| > 0 && TrimHistory(turns)[0] == turns[0]
  {
    DropOldestIsKeepRecent(turns, MaxNonSystemTurns);
  }

  lemma {:induction false} NonSystemTurnsOfUserRun(us: seq<Turn>)
    requires forall i :: 0 <= i < |us| ==> !IsSystem(us[i])
    ensures NonSystemTurns(us) == us
    decreases |us|
  {
    if |us| > 0 {
      NonSystemTurnsOfUserRun(us[1..]);
    }
  }

  /** Trimming can move a later System turn to the front: a thread opening
      with a non-System turn, then a System turn, then `MaxNonSystemTurns`
      non-System turns, starts with that System turn once trimmed. */
  lemma TrimHistoryCanPromoteSystem(first: Turn, instruction: Turn, later: seq<Turn>)
    requires !IsSystem(first) && IsSystem(instruction)
    requires |later| == MaxNonSystemTurns
    requires forall i :: 0 <= i < |later| ==> !IsSystem(later[i])
    ensures TrimHistory([first, instruction] + later)[0] == instruction
  {
    var s := [first, instruction] + later;
    DropOldestIsKeepRecent(s, MaxNonSystemTurns);
    NonSystemTurnsOfUserRun(later);
    assert s[1..] == [instruction] + later;
    assert s[1..][1..] == later;
    assert CountNonSystem(s[1..]) == MaxNonSystemTurns;
  }
}
