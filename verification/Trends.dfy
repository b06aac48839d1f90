/** The streaming history scan (src/trends.rs): at most `last` points a server,
    kept sorted while the journal is read. */
module Trends {
  import opened Common
  import opened StableSort
  import StringOrder

  /** A recorded point; `profileOk` is the verdict on its measurement profile,
      when it has one. */
  datatype Point = Point(ts: string, server: string, score: nat, profileOk: Option<bool>)

  predicate Earlier(a: Point, b: Point) { StringOrder.Le(a.ts, b.ts) }

  lemma EarlierIsOrder()
    ensures IsTotalPreorder(Earlier)
  {
    forall x: Point, y: Point ensures Earlier(x, y) || Earlier(y, x) {
      StringOrder.Total(x.ts, y.ts);
    }
    forall x: Point, y: Point, z: Point | Earlier(x, y) && Earlier(y, z) ensures Earlier(x, z) {
      StringOrder.Transitive(x.ts, y.ts, z.ts);
    }
  }

  // -------------------------------------------------------------- simple form

  function Where<T>(s: seq<T>, keep: T -> bool): seq<T> {
    if s == [] then []
    else Where(s[..|s| - 1], keep) + (if keep(s[|s| - 1]) then [s[|s| - 1]] else [])
  }

  function OfServer(points: seq<Point>, server: string): seq<Point> {
    Where(points, (p: Point) => p.server == server)
  }

  function Suffix<T>(s: seq<T>, last: nat): seq<T> { if |s| <= last then s else s[|s| - last..] }

  /** The newest `last` points of one server, oldest first; of points recorded
      at the same instant, the ones that arrived later are newer. */
  function Recent(points: seq<Point>, server: string, last: nat): seq<Point> {
    Suffix(Sort(OfServer(points, server), Earlier), last)
  }

  // --------------------------------------------------------- bounded insertion

  /** `partition_point` on a sorted list. */
  method PartitionPoint(s: seq<Point>, p: Point) returns (k: nat)
    requires IsSorted(s, Earlier)
    ensures k <= |s|
    ensures forall i :: 0 <= i < k ==> Earlier(s[i], p)
    ensures forall i :: k <= i < |s| ==> !Earlier(s[i], p)
  {
    EarlierIsOrder();
    var lo, hi := 0, |s|;
    while lo < hi
      invariant 0 <= lo <= hi <= |s|
      invariant forall i :: 0 <= i < lo ==> Earlier(s[i], p)
      invariant forall i :: hi <= i < |s| ==> !Earlier(s[i], p)
    {
      var mid := (lo + hi) / 2;
      if Earlier(s[mid], p) {
        forall i | 0 <= i <= mid ensures Earlier(s[i], p) {
          assert i < mid ==> Earlier(s[i], s[mid]);
        }
        lo := mid + 1;
      } else {
        forall i | mid <= i < |s| ensures !Earlier(s[i], p) {
          assert mid < i ==> Earlier(s[mid], s[i]);
        }
        hi := mid;
      }
    }
    k := lo;
  }

  lemma {:induction false} InsertAt(s: seq<Point>, p: Point, k: nat)
    requires k <= |s|
    requires forall i :: 0 <= i < k ==> Earlier(s[i], p)
    requires forall i :: k <= i < |s| ==> !Earlier(s[i], p)
    ensures Insert(s, p, Earlier) == s[..k] + [p] + s[k..]
  {
    if s != [] && !Earlier(s[|s| - 1], p) {
      var front := s[..|s| - 1];
      InsertAt(front, p, k);
      assert front[..k] == s[..k] && s[k..] == front[k..] + [s[|s| - 1]];
      assert (s[..k] + [p] + front[k..]) + [s[|s| - 1]] == s[..k] + [p] + (front[k..] + [s[|s| - 1]]);
    } else if s != [] {
      assert k == |s|;
    }
  }

  /** Where a sorted list takes `p` in. */
  function Place(s: seq<Point>, p: Point): (k: nat)
    ensures k <= |s|
  {
    if s == [] then 0 else if Earlier(s[|s| - 1], p) then |s| else Place(s[..|s| - 1], p)
  }

  lemma {:induction false} PlaceParts(s: seq<Point>, p: Point)
    requires IsSorted(s, Earlier)
    ensures forall i :: 0 <= i < Place(s, p) ==> Earlier(s[i], p)
    ensures forall i :: Place(s, p) <= i < |s| ==> !Earlier(s[i], p)
  {
    if s != [] {
      if Earlier(s[|s| - 1], p) {
        forall i | 0 <= i < |s| - 1 ensures Earlier(s[i], p) {
          StringOrder.Transitive(s[i].ts, s[|s| - 1].ts, p.ts);
        }
      } else {
        PlaceParts(s[..|s| - 1], p);
      }
    }
  }

  lemma {:induction false} InsertThenCut<T>(s: seq<T>, p: T, k: nat, cut: nat)
    requires cut <= k <= |s|
    ensures (s[..k] + [p] + s[k..])[cut..] == s[cut..][..k - cut] + [p] + s[cut..][k - cut..]
  {
  }

  lemma {:induction false} InsertBeforeCut<T>(s: seq<T>, p: T, k: nat, cut: nat)
    requires k < cut <= |s|
    ensures (s[..k] + [p] + s[k..])[cut + 1..] == s[cut..]
  {
  }

  /** The suffix takes `p` in where the whole list does, or in front. */
  lemma {:induction false} InsertIntoSuffix(s: seq<Point>, p: Point, k: nat, cut: nat)
    requires k <= |s| && cut <= |s|
    requires forall i :: 0 <= i < k ==> Earlier(s[i], p)
    requires forall i :: k <= i < |s| ==> !Earlier(s[i], p)
    ensures k < cut ==> Insert(s[cut..], p, Earlier) == [p] + s[cut..]
    ensures cut <= k ==> Insert(s[cut..], p, Earlier) == s[cut..][..k - cut] + [p] + s[cut..][k - cut..]
  {
    var kept := s[cut..];
    var place := if k < cut then 0 else k - cut;
    forall i | 0 <= i < place ensures Earlier(kept[i], p) {
      assert kept[i] == s[cut + i];
    }
    forall i | place <= i < |kept| ensures !Earlier(kept[i], p) {
      assert kept[i] == s[cut + i];
    }
    InsertAt(kept, p, place);
    assert kept[..0] + [p] + kept[0..] == [p] + kept;
  }

  lemma {:induction false} SuffixesAgree<T>(s: seq<T>, p: T, k: nat, last: nat, whole: seq<T>, part: seq<T>)
    requires 0 < last < |s| && k <= |s| && whole == s[..k] + [p] + s[k..]
    requires
      var cut := |s| - last;
      part == if k < cut then [p] + s[cut..] else s[cut..][..k - cut] + [p] + s[cut..][k - cut..]
    ensures Suffix(part, last) == Suffix(whole, last)
  {
    var cut := |s| - last;
    if k < cut {
      InsertBeforeCut(s, p, k, cut);
    } else {
      InsertThenCut(s, p, k, cut);
      assert whole[cut..][1..] == whole[cut + 1..];
    }
  }

  /** Only what is kept can decide what will be kept. */
  lemma {:induction false} SuffixInsert(s: seq<Point>, p: Point, last: nat)
    requires IsSorted(s, Earlier) && last > 0
    ensures Suffix(Insert(Suffix(s, last), p, Earlier), last) == Suffix(Insert(s, p, Earlier), last)
  {
    if |s| > last {
      var k := Place(s, p);
      PlaceParts(s, p);
      InsertAt(s, p, k);
      InsertIntoSuffix(s, p, k, |s| - last);
      SuffixesAgree(s, p, k, last, Insert(s, p, Earlier), Insert(s[|s| - last..], p, Earlier));
    }
  }

  // --------------------------------------------------------------------- scan

  datatype Scanned = Corrupt | Points(points: seq<Point>)

  predicate Accepted(p: Point) { p.profileOk != Some(false) }

  ghost predicate Kept(groups: map<string, seq<Point>>, seen: seq<Point>, last: nat) {
    && (forall s :: s in groups ==> groups[s] == Recent(seen, s, last))
    && (forall s :: s !in groups ==> OfServer(seen, s) == [])
  }

  lemma {:induction false} OfServerAppended(seen: seq<Point>, p: Point, server: string)
    ensures OfServer(seen + [p], server) == OfServer(seen, server) + (if p.server == server then [p] else [])
  {
    assert (seen + [p])[..|seen|] == seen;
  }

  lemma {:induction false} RecentAppended(seen: seq<Point>, p: Point, last: nat)
    requires last > 0
    ensures Recent(seen + [p], p.server, last) == Suffix(Insert(Recent(seen, p.server, last), p, Earlier), last)
  {
    var mine := OfServer(seen, p.server);
    OfServerAppended(seen, p, p.server);
    assert (mine + [p])[..|mine|] == mine;
    EarlierIsOrder();
    SortSorted(mine, Earlier);
    SuffixInsert(Sort(mine, Earlier), p, last);
  }

  lemma {:induction false} RecentSorted(seen: seq<Point>, server: string, last: nat)
    ensures IsSorted(Recent(seen, server, last), Earlier) && |Recent(seen, server, last)| <= last
  {
    EarlierIsOrder();
    SortSorted(OfServer(seen, server), Earlier);
  }

  method InsertRecent(recent: seq<Point>, p: Point, last: nat) returns (more: seq<Point>)
    requires IsSorted(recent, Earlier) && |recent| <= last
    ensures more == Suffix(Insert(recent, p, Earlier), last)
  {
    var index := PartitionPoint(recent, p);
    InsertAt(recent, p, index);
    more := recent[..index] + [p] + recent[index..];
    if |more| > last {
      more := more[1..];
    }
  }

  lemma {:induction false} KeptAfter(groups: map<string, seq<Point>>, p: Point, last: nat, seen: seq<Point>)
    requires Kept(groups, seen, last)
    ensures Kept(groups[p.server := Recent(seen + [p], p.server, last)], seen + [p], last)
  {
    forall s | s != p.server ensures OfServer(seen + [p], s) == OfServer(seen, s) {
      OfServerAppended(seen, p, s);
    }
  }

  method Add(groups: map<string, seq<Point>>, p: Point, last: nat, ghost seen: seq<Point>)
    returns (more: map<string, seq<Point>>)
    requires last > 0 && Kept(groups, seen, last)
    ensures Kept(more, seen + [p], last)
  {
    var recent := if p.server in groups then groups[p.server] else [];
    assert recent == Recent(seen, p.server, last);
    RecentSorted(seen, p.server, last);
    recent := InsertRecent(recent, p, last);
    RecentAppended(seen, p, last);
    KeptAfter(groups, p, last, seen);
    more := groups[p.server := recent];
  }

  lemma {:induction false} LeastKey(keys: set<string>) returns (least: string)
    requires keys != {}
    ensures least in keys && forall k :: k in keys ==> StringOrder.Le(least, k)
  {
    var k :| k in keys;
    StringOrder.Reflexive(k);
    if keys == {k} {
      least := k;
    } else {
      var rest := LeastKey(keys - {k});
      StringOrder.Total(rest, k);
      least := if StringOrder.Le(rest, k) then rest else k;
      forall j | j in keys ensures StringOrder.Le(least, j) {
        if j != k {
          StringOrder.Transitive(least, rest, j);
        }
      }
    }
  }

  ghost predicate ByServer(points: seq<Point>) {
    forall i, j :: 0 <= i < j < |points| ==> StringOrder.Le(points[i].server, points[j].server)
  }

  lemma {:induction false} WhereAll<T>(s: seq<T>, keep: T -> bool)
    ensures (forall x :: x in s ==> keep(x)) ==> Where(s, keep) == s
    ensures (forall x :: x in s ==> !keep(x)) ==> Where(s, keep) == []
    ensures forall x :: x in Where(s, keep) ==> x in s && keep(x)
  {
    if s != [] {
      var front, last := s[..|s| - 1], s[|s| - 1];
      WhereAll(front, keep);
      assert s == front + [last];
      assert forall x :: x in front ==> x in s;
      assert last in s;
    }
  }

  lemma {:induction false} WhereConcat<T>(a: seq<T>, b: seq<T>, keep: T -> bool)
    ensures Where(a + b, keep) == Where(a, keep) + Where(b, keep)
  {
    if b == [] {
      assert a + b == a;
    } else {
      WhereConcat(a, b[..|b| - 1], keep);
      assert (a + b)[..|a + b| - 1] == a + b[..|b| - 1];
    }
  }

  lemma {:induction false} RecentIsOneServer(seen: seq<Point>, server: string, last: nat)
    ensures forall p :: p in Recent(seen, server, last) ==> p.server == server
  {
    WhereAll(seen, (p: Point) => p.server == server);
    forall p | p in Recent(seen, server, last) ensures p.server == server {
      SortMember(OfServer(seen, server), Earlier, p);
    }
  }

  lemma {:induction false} AppendGroup(out: seq<Point>, group: seq<Point>, server: string)
    requires ByServer(out) && (forall p :: p in group ==> p.server == server)
    requires forall p :: p in out ==> StringOrder.Le(p.server, server) && p.server != server
    ensures ByServer(out + group)
    ensures OfServer(out + group, server) == group
    ensures forall s :: s != server ==> OfServer(out + group, s) == OfServer(out, s)
  {
    StringOrder.Reflexive(server);
    forall s ensures OfServer(out + group, s) == if s == server then group else OfServer(out, s) {
      WhereConcat(out, group, (p: Point) => p.server == s);
      WhereAll(group, (p: Point) => p.server == s);
      if s == server {
        WhereAll(out, (p: Point) => p.server == s);
      }
    }
  }

  /** What is laid out once only the names in `left` are still to come. */
  ghost predicate Laid(out: seq<Point>, groups: map<string, seq<Point>>, left: set<string>) {
    && left <= groups.Keys && ByServer(out)
    && (forall p, k :: p in out && k in left ==> StringOrder.Le(p.server, k) && p.server != k)
    && (forall s :: s in groups && s !in left ==> OfServer(out, s) == groups[s])
    && (forall s :: s !in groups || s in left ==> OfServer(out, s) == [])
  }

  lemma {:induction false} LaidNext(out: seq<Point>, groups: map<string, seq<Point>>, left: set<string>, k: string)
    requires Laid(out, groups, left) && k in left && (forall j :: j in left ==> StringOrder.Le(k, j))
    requires forall p :: p in groups[k] ==> p.server == k
    ensures Laid(out + groups[k], groups, left - {k})
  {
    AppendGroup(out, groups[k], k);
  }

  /** The groups in the order of their names, one after the other. */
  method Flatten(groups: map<string, seq<Point>>) returns (out: seq<Point>)
    requires forall k, p :: k in groups && p in groups[k] ==> p.server == k
    ensures Laid(out, groups, {})
  {
    out := [];
    var left := groups.Keys;
    while left != {}
      invariant Laid(out, groups, left)
      decreases |left|
    {
      ghost var least := LeastKey(left);
      var k :| k in left && forall j :: j in left ==> StringOrder.Le(k, j);
      LaidNext(out, groups, left, k);
      out := out + groups[k];
      left := left - {k};
    }
  }

  lemma {:induction false} GroupsAreOneServer(groups: map<string, seq<Point>>, seen: seq<Point>, last: nat)
    requires Kept(groups, seen, last)
    ensures forall k, p :: k in groups && p in groups[k] ==> p.server == k
  {
    forall k | k in groups ensures forall p :: p in groups[k] ==> p.server == k {
      RecentIsOneServer(seen, k, last);
    }
  }

  lemma {:induction false} Answers(out: seq<Point>, groups: map<string, seq<Point>>, seen: seq<Point>, last: nat)
    requires Kept(groups, seen, last) && Laid(out, groups, {})
    ensures forall s :: OfServer(out, s) == Recent(seen, s, last)
  {
    forall s ensures OfServer(out, s) == Recent(seen, s, last) {
      if s !in groups {
        assert OfServer(out, s) == [] && OfServer(seen, s) == [];
      }
    }
  }

  /** For every journal order and every bound, the scan answers each server's
      newest points and nothing else, server by server; one bad profile
      anywhere refuses the journal. */
  method Scan(journal: seq<Point>, last: nat) returns (r: Scanned)
    ensures r.Corrupt? <==> exists p :: p in journal && !Accepted(p)
    ensures r.Points? ==> ByServer(r.points)
    ensures r.Points? ==> forall s :: OfServer(r.points, s) == Recent(journal, s, last)
  {
    var groups: map<string, seq<Point>> := map[];
    for i := 0 to |journal|
      invariant forall j :: 0 <= j < i ==> Accepted(journal[j])
      invariant last > 0 ==> Kept(groups, journal[..i], last)
      invariant last == 0 ==> groups == map[]
    {
      var p := journal[i];
      if p.profileOk == Some(false) {
        assert p in journal && !Accepted(p);
        return Corrupt;
      }
      if last == 0 {
        continue;
      }
      groups := Add(groups, p, last, journal[..i]);
      assert journal[..i + 1] == journal[..i] + [p];
    }
    assert journal[..|journal|] == journal;
    if last == 0 {
      return Points([]);
    }
    GroupsAreOneServer(groups, journal, last);
    var out := Flatten(groups);
    Answers(out, groups, journal, last);
    r := Points(out);
  }

  // ----------------------------------------------------------- the simple form

  lemma {:induction false} WhereCounts<T>(s: seq<T>, keep: T -> bool, x: T)
    ensures multiset(Where(s, keep))[x] == if keep(x) then multiset(s)[x] else 0
  {
    if s != [] {
      var front, last := s[..|s| - 1], s[|s| - 1];
      WhereCounts(front, keep, x);
      assert s == front + [last];
    }
  }

  /** What an answer leaves out. */
  function LeftOut(points: seq<Point>, server: string, last: nat): seq<Point> {
    var all := Sort(OfServer(points, server), Earlier);
    if |all| <= last then [] else all[..|all| - last]
  }

  lemma {:induction false} NothingElse(points: seq<Point>, server: string, last: nat)
    ensures LeftOut(points, server, last) + Recent(points, server, last) == Sort(OfServer(points, server), Earlier)
  {
    var all := Sort(OfServer(points, server), Earlier);
    assert |all| > last ==> all[..|all| - last] + all[|all| - last..] == all;
  }

  ghost predicate InOrder(points: seq<Point>) {
    forall i, j :: 0 <= i < j < |points| ==> StringOrder.ComesFirst(points[i].ts, points[j].ts)
  }

  ghost predicate AllBefore(a: seq<Point>, b: seq<Point>) {
    forall i, j :: 0 <= i < |a| && 0 <= j < |b| ==> StringOrder.ComesFirst(a[i].ts, b[j].ts)
  }

  lemma {:induction false} SortInOrder(points: seq<Point>)
    ensures InOrder(Sort(points, Earlier))
  {
    var all := Sort(points, Earlier);
    EarlierIsOrder();
    SortSorted(points, Earlier);
    forall i, j | 0 <= i < j < |all| ensures StringOrder.ComesFirst(all[i].ts, all[j].ts) {
      assert Earlier(all[i], all[j]);
      StringOrder.LeMeans(all[i].ts, all[j].ts);
    }
  }

  lemma {:induction false} SplitInOrder(a: seq<Point>, b: seq<Point>)
    requires InOrder(a + b)
    ensures InOrder(b) && AllBefore(a, b)
  {
    var all := a + b;
    forall i, j | 0 <= i < j < |b| ensures StringOrder.ComesFirst(b[i].ts, b[j].ts) {
      assert all[|a| + i] == b[i] && all[|a| + j] == b[j];
    }
    forall i, j | 0 <= i < |a| && 0 <= j < |b| ensures StringOrder.ComesFirst(a[i].ts, b[j].ts) {
      assert all[i] == a[i] && all[|a| + j] == b[j];
    }
  }

  /** Of a server's points those kept are as many as there are up to `last`,
      oldest first, and nothing left out comes after any of them. */
  lemma {:induction false} RecentMeans(points: seq<Point>, server: string, last: nat)
    ensures
      var kept, left := Recent(points, server, last), LeftOut(points, server, last);
      |kept| == Min(last, |left| + |kept|) && InOrder(kept) && AllBefore(left, kept)
  {
    NothingElse(points, server, last);
    SortInOrder(OfServer(points, server));
    SplitInOrder(LeftOut(points, server, last), Recent(points, server, last));
  }

  /** Kept or left out, every point of the server is there as often as it was
      recorded, and no other is. */
  lemma {:induction false} NoneLost(points: seq<Point>, server: string, last: nat, p: Point)
    ensures multiset(LeftOut(points, server, last))[p] + multiset(Recent(points, server, last))[p]
         == if p.server == server then multiset(points)[p] else 0
  {
    NothingElse(points, server, last);
    SortMultiset(OfServer(points, server), Earlier);
    WhereCounts(points, (p: Point) => p.server == server, p);
    assert multiset(LeftOut(points, server, last) + Recent(points, server, last))
        == multiset(LeftOut(points, server, last)) + multiset(Recent(points, server, last));
  }

  /** Sorting keeps points of one instant in the order they arrived. */
  lemma {:induction false} SortKeepsArrival(s: seq<Point>, ts: string)
    ensures Where(Sort(s, Earlier), (p: Point) => p.ts == ts) == Where(s, (p: Point) => p.ts == ts)
  {
    if s != [] {
      SortKeepsArrival(s[..|s| - 1], ts);
      InsertKeepsArrival(Sort(s[..|s| - 1], Earlier), s[|s| - 1], ts);
    }
  }

  lemma {:induction false} InsertKeepsArrival(s: seq<Point>, p: Point, ts: string)
    ensures Where(Insert(s, p, Earlier), (q: Point) => q.ts == ts)
         == Where(s, (q: Point) => q.ts == ts) + (if p.ts == ts then [p] else [])
  {
    var same := (q: Point) => q.ts == ts;
    if s == [] || Earlier(s[|s| - 1], p) {
      assert (s + [p])[..|s|] == s;
    } else {
      var front, last := s[..|s| - 1], s[|s| - 1];
      InsertKeepsArrival(front, p, ts);
      WhereConcat(Insert(front, p, Earlier), [last], same);
      assert [last][..0] == [];
      StringOrder.Reflexive(p.ts);
    }
  }
}
