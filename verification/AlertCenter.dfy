/**
 Grouping and paging of the alert centre (dashboard/alert_center.py:20-83).
 */
module AlertCenter {
  import opened Wrappers
  import opened Sums
  import opened Grouping

  datatype Incident = Incident(
    id: int, root: int, cluster: string, code: string, detectedAt: int, status: string,
    acknowledgedAt: Option<int>, mutedUntil: Option<int>)

  /** What makes alerts the same; a root of 0 is none. */
  datatype Key = Root(root: int) | Code(cluster: string, code: string)

  function KeyOf(): Incident -> Key {
    (i: Incident) =>
      if i.root != 0 then Root(i.root) else Code(if i.cluster == "" then "default" else i.cluster, i.code)
  }

  const OPEN_STATUSES: set<string> :=
    {"NEW", "DIAGNOSING", "PENDING_APPROVAL", "APPROVED", "EXECUTING", "GRACE_PENDING", "VERIFYING", "FAILED"}

  datatype Group = Group(
    code: string, representative: Incident, incidents: seq<Incident>, occurrences: nat, active: nat,
    firstSeen: int, lastSeen: int)
  {
    /** One more incident of the group. */
    function Add(i: Incident, isOpen: bool): Group {
      Group(code,
            if i.detectedAt > representative.detectedAt then i else representative,
            incidents + [i], occurrences + 1, active + if isOpen then 1 else 0,
            if i.detectedAt < firstSeen then i.detectedAt else firstSeen,
            if i.detectedAt > lastSeen then i.detectedAt else lastSeen)
    }
  }

  /** A row of the page. */
  datatype Row = Row(group: Group, isActive: bool, merged: nat, isAcknowledged: bool, isMuted: bool)

  // ----- Groups -----

  function FirstOf(i: Incident): Group { Group(i.code, i, [], 0, 0, i.detectedAt, i.detectedAt) }

  type OpenTest = Incident -> bool

  function IsOpen(): OpenTest { (i: Incident) => i.status in OPEN_STATUSES }

  /** The group of these incidents, in their order. */
  function GroupOf(members: seq<Incident>, isOpen: OpenTest): Group
    requires members != []
  {
    var n := |members| - 1;
    (if n == 0 then FirstOf(members[0]) else GroupOf(members[..n], isOpen)).Add(members[n], isOpen(members[n]))
  }

  function RowOf(group: Group, now: int): Row {
    Row(group, group.active > 0, if group.occurrences < 1 then 0 else group.occurrences - 1,
        group.representative.acknowledgedAt.Some?,
        match group.representative.mutedUntil case None => false case Some(until) => until > now)
  }

  function GroupAt(incidents: seq<Incident>, isOpen: OpenTest, k: Key): Group
    requires k in KeysOf(incidents, KeyOf())
  {
    KeyHasMembers(incidents, k);
    GroupOf(Select(incidents, KeyOf(), k), isOpen)
  }

  lemma {:induction false} KeyHasMembers(incidents: seq<Incident>, k: Key)
    ensures k in KeysOf(incidents, KeyOf()) <==> Select(incidents, KeyOf(), k) != []
  {
    if incidents != [] {
      KeyHasMembers(incidents[..|incidents| - 1], k);
    }
  }

  /** A Python slice from the start, where a negative bound counts from the end. */
  function Prefix<T>(xs: seq<T>, bound: int): seq<T> {
    if bound >= |xs| then xs
    else if bound >= 0 then xs[..bound]
    else if -bound <= |xs| then xs[..|xs| + bound]
    else []
  }

  /** One row per key, in order of first occurrence. */
  function RowsOf(incidents: seq<Incident>, isOpen: OpenTest, now: int): seq<Row> {
    var keys := KeysOf(incidents, KeyOf());
    seq(|keys|, i requires 0 <= i < |keys| => RowOf(GroupAt(incidents, isOpen, keys[i]), now))
  }

  method BuildAlertGroups(incidents: seq<Incident>, maxGroups: Option<int>, now: int) returns (rows: seq<Row>)
    ensures rows == match maxGroups
      case None => RowsOf(incidents, IsOpen(), now)
      case Some(bound) => Prefix(RowsOf(incidents, IsOpen(), now), bound)
  {
    var keys, groups := CollectGroups(incidents, IsOpen());
    var all := seq(|keys|, i requires 0 <= i < |keys| && keys[i] in groups => RowOf(groups[keys[i]], now));
    assert all == RowsOf(incidents, IsOpen(), now);
    rows := match maxGroups case None => all case Some(bound) => Prefix(all, bound);
  }

  /** The ordered dictionary: its keys in order of insertion, and the groups. */
  method CollectGroups(incidents: seq<Incident>, isOpen: OpenTest) returns (keys: seq<Key>, groups: map<Key, Group>)
    ensures Collected(incidents, isOpen, keys, groups)
  {
    keys, groups := [], map[];
    for i := 0 to |incidents|
      invariant Collected(incidents[..i], isOpen, keys, groups)
    {
      var incident := incidents[i];
      var key := KeyOf()(incident);
      assert incidents[..i + 1] == incidents[..i] + [incident];
      KeysSnoc(incidents[..i], incident, KeyOf());
      CollectedSnoc(incidents[..i], isOpen, keys, groups, incident);
      if key !in groups {
        keys := keys + [key];
        groups := groups[key := FirstOf(incident)];
      }
      groups := groups[key := groups[key].Add(incident, isOpen(incident))];
    }
    assert incidents[..|incidents|] == incidents;
  }

  ghost predicate Collected(incidents: seq<Incident>, isOpen: OpenTest, keys: seq<Key>, groups: map<Key, Group>) {
    && keys == KeysOf(incidents, KeyOf())
    && (forall k :: k in groups <==> k in keys)
    && (forall k :: k in keys ==> groups[k] == GroupAt(incidents, isOpen, k))
  }

  lemma CollectedSnoc(incidents: seq<Incident>, isOpen: OpenTest, keys: seq<Key>, groups: map<Key, Group>,
      incident: Incident)
    requires Collected(incidents, isOpen, keys, groups)
    ensures var key := KeyOf()(incident);
      var group := if key in groups then groups[key] else FirstOf(incident);
      Collected(incidents + [incident], isOpen, KeysOf(incidents + [incident], KeyOf()),
                groups[key := group.Add(incident, isOpen(incident))])
  {
    var longer, key := incidents + [incident], KeyOf()(incident);
    var group := if key in groups then groups[key] else FirstOf(incident);
    var groups' := groups[key := group.Add(incident, isOpen(incident))];
    KeysSnoc(incidents, incident, KeyOf());
    forall k | k in KeysOf(longer, KeyOf()) ensures groups'[k] == GroupAt(longer, isOpen, k) {
      GroupSnoc(incidents, isOpen, incident, k);
    }
  }

  lemma GroupSnoc(incidents: seq<Incident>, isOpen: OpenTest, incident: Incident, k: Key)
    requires k in KeysOf(incidents + [incident], KeyOf())
    ensures var known := k in KeysOf(incidents, KeyOf());
      && (k != KeyOf()(incident) ==> known)
      && GroupAt(incidents + [incident], isOpen, k)
         == if k != KeyOf()(incident) then (if known then GroupAt(incidents, isOpen, k) else FirstOf(incident))
            else (if known then GroupAt(incidents, isOpen, k) else FirstOf(incident)).Add(incident, isOpen(incident))
  {
    var members := Select(incidents, KeyOf(), k);
    SelectSnoc(incidents, incident, KeyOf(), k);
    KeysSnoc(incidents, incident, KeyOf());
    KeyHasMembers(incidents, k);
    if k == KeyOf()(incident) {
      assert Select(incidents + [incident], KeyOf(), k) == members + [incident];
      assert (members + [incident])[..|members|] == members;
    } else {
      assert Select(incidents + [incident], KeyOf(), k) == members;
    }
  }

  // ----- What the groups promise -----

  /** A group holds its members, and counts them and the open ones. */
  lemma {:induction false} GroupCountsMembers(members: seq<Incident>, isOpen: OpenTest)
    requires members != []
    ensures var g := GroupOf(members, isOpen);
      && g.incidents == members && g.occurrences == |members| && g.code == members[0].code
      && g.active == Count(members, isOpen)
  {
    var n := |members| - 1;
    assert members == members[..n] + [members[n]];
    if n > 0 {
      GroupCountsMembers(members[..n], isOpen);
    } else {
      assert members[..n] == [];
    }
  }

  /** A group is active exactly when one of its members is open. */
  lemma {:induction false} ActiveIffSomeOpen(members: seq<Incident>, isOpen: OpenTest)
    ensures Count(members, isOpen) > 0 <==> exists i :: i in members && isOpen(i)
  {
    if members != [] {
      assert members == members[..|members| - 1] + [members[|members| - 1]];
      ActiveIffSomeOpen(members[..|members| - 1], isOpen);
    }
  }

  /** First and last sighting are the extreme times of the members; the representative has the last. */
  lemma {:induction false} GroupSpansMembers(members: seq<Incident>, isOpen: OpenTest)
    requires members != []
    ensures var g := GroupOf(members, isOpen);
      && g.representative.detectedAt == g.lastSeen
      && (forall i :: 0 <= i < |members| ==> g.firstSeen <= members[i].detectedAt <= g.lastSeen)
      && (exists i :: 0 <= i < |members| && members[i].detectedAt == g.firstSeen)
  {
    var n := |members| - 1;
    if n > 0 {
      GroupSpansMembers(members[..n], isOpen);
    }
  }

  /** The representative is the first of the latest members. */
  lemma {:induction false} RepresentativeIsFirstOfLatest(members: seq<Incident>, isOpen: OpenTest) returns (k: nat)
    requires members != []
    ensures var g := GroupOf(members, isOpen);
      && k < |members| && g.representative == members[k]
      && forall i :: 0 <= i < |members| ==>
           if i < k then members[i].detectedAt < members[k].detectedAt
             else members[i].detectedAt <= members[k].detectedAt
  {
    var n := |members| - 1;
    if n == 0 {
      k := 0;
    } else {
      k := RepresentativeIsFirstOfLatest(members[..n], isOpen);
      if members[n].detectedAt > members[k].detectedAt {
        k := n;
      }
    }
  }

  /** Alerts belong together when they share a root, or have none and share cluster and code. */
  lemma SameKeyIff(a: Incident, b: Incident)
    ensures KeyOf()(a) == KeyOf()(b) <==>
      || (a.root == b.root && a.root != 0)
      || (a.root == b.root == 0 && a.code == b.code
          && (a.cluster == b.cluster || (a.cluster in {"", "default"} && b.cluster in {"", "default"})))
  {
  }

  /** What a row shows: whether some member is open, how many were merged, and the flags of the representative. */
  lemma RowMeans(members: seq<Incident>, now: int) returns (k: nat)
    requires members != []
    ensures var row := RowOf(GroupOf(members, IsOpen()), now);
      && row.group == GroupOf(members, IsOpen()) && k < |members| && row.group.representative == members[k]
      && row.merged == |members| - 1
      && (row.isActive <==> exists i :: i in members && IsOpenStatus(i.status))
      && (row.isAcknowledged <==> members[k].acknowledgedAt != None)
      && (row.isMuted <==> members[k].mutedUntil != None && members[k].mutedUntil.value > now)
  {
    GroupCountsMembers(members, IsOpen());
    ActiveIffSomeOpen(members, IsOpen());
    k := RepresentativeIsFirstOfLatest(members, IsOpen());
    forall i: Incident ensures IsOpen()(i) <==> IsOpenStatus(i.status) {
      OpenStatuses(i.status);
    }
  }

  predicate IsOpenStatus(status: string) {
    || status == "NEW" || status == "DIAGNOSING" || status == "PENDING_APPROVAL" || status == "APPROVED"
    || status == "EXECUTING" || status == "GRACE_PENDING" || status == "VERIFYING" || status == "FAILED"
  }

  lemma OpenStatuses(status: string)
    ensures status in OPEN_STATUSES <==> IsOpenStatus(status)
  {
  }

  /** A bound keeps the first rows; a negative one drops as many at the end. */
  lemma PrefixKeepsFirst<T>(xs: seq<T>, bound: int)
    ensures Prefix(xs, bound) <= xs
    ensures 0 <= bound <= |xs| ==> |Prefix(xs, bound)| == bound
    ensures bound > |xs| ==> Prefix(xs, bound) == xs
    ensures bound < 0 ==> |Prefix(xs, bound)| == if |xs| + bound > 0 then |xs| + bound else 0
  {
  }

  /** The groups partition the incidents: every measure of the incidents is the sum over the groups. */
  lemma GroupsPartitionIncidents(incidents: seq<Incident>, measure: Incident -> real)
    ensures Sum(KeysOf(incidents, KeyOf()), GroupTotal(incidents, KeyOf(), measure)) == Sum(incidents, measure)
    ensures forall k, i :: i in Select(incidents, KeyOf(), k) <==> i in incidents && KeyOf()(i) == k
  {
    var keys := KeysOf(incidents, KeyOf());
    forall i | i in incidents ensures KeyOf()(i) in keys {
      var j :| 0 <= j < |incidents| && incidents[j] == i;
      assert KeyOf()(incidents[j]) == KeyOf()(i);
    }
    GroupTotalsAddUp(keys, incidents, KeyOf(), measure);
    forall k ensures forall i :: i in Select(incidents, KeyOf(), k) <==> i in incidents && KeyOf()(i) == k {
      SelectMembers(incidents, KeyOf(), k);
    }
  }

  ghost function One(): Incident -> real { (i: Incident) => 1.0 }

  ghost function OccurrencesOf(incidents: seq<Incident>, isOpen: OpenTest): Key -> real {
    k => if k in KeysOf(incidents, KeyOf()) then GroupAt(incidents, isOpen, k).occurrences as real else 0.0
  }

  lemma {:induction false} SumOfOnes(members: seq<Incident>)
    ensures Sum(members, One()) == |members| as real
  {
    if members != [] {
      SumOfOnes(members[..|members| - 1]);
    }
  }

  /** The occurrence counts add up to the number of incidents. */
  lemma OccurrencesAddUp(incidents: seq<Incident>, isOpen: OpenTest)
    ensures Sum(KeysOf(incidents, KeyOf()), OccurrencesOf(incidents, isOpen)) == |incidents| as real
  {
    var keys := KeysOf(incidents, KeyOf());
    var sizes := GroupTotal(incidents, KeyOf(), One());
    forall k | k in keys ensures OccurrencesOf(incidents, isOpen)(k) == sizes(k) {
      var members := Select(incidents, KeyOf(), k);
      KeyHasMembers(incidents, k);
      GroupCountsMembers(members, isOpen);
      SumOfOnes(members);
    }
    SumMonotone(keys, OccurrencesOf(incidents, isOpen), sizes);
    SumMonotone(keys, sizes, OccurrencesOf(incidents, isOpen));
    GroupsPartitionIncidents(incidents, One());
    SumOfOnes(incidents);
  }

  // ----- Pages -----

  datatype Page<T> = Page(items: seq<T>, page: nat, pageSize: nat, totalGroups: nat, totalPages: nat)

  function Max(a: int, b: int): int { if a > b then a else b }

  function TotalPages(n: nat, size: nat): nat
    requires size > 0
  {
    Max(1, (n + size - 1) / size)
  }

  function Paginate<T>(groups: seq<T>, page: int, pageSize: int): Page<T> {
    var size := Max(1, pageSize);
    var total := TotalPages(|groups|, size);
    var current := if Max(1, page) < total then Max(1, page) else total;
    var start := StartOf(current, size);
    Page(Slice(groups, start, start + size), current, size, |groups|, total)
  }

  function StartOf(page: nat, size: nat): nat
    requires page > 0
  {
    (page - 1) * size
  }

  /** A Python slice; both bounds may lie beyond the end. */
  function Slice<T>(xs: seq<T>, start: nat, end: nat): seq<T>
    requires start <= end
  {
    if start >= |xs| then [] else if end >= |xs| then xs[start..] else xs[start..end]
  }

  /** The last page is the one that reaches the end. */
  lemma LastPageReachesEnd(n: nat, size: nat)
    requires size > 0
    ensures StartOf(TotalPages(n, size), size) + size >= n
    ensures n > 0 ==> StartOf(TotalPages(n, size), size) < n
    ensures TotalPages(n, size) >= 1
  {
    var q := (n + size - 1) / size;
    assert q * size <= n + size - 1 < (q + 1) * size by {
      DivisionBounds(n + size - 1, size);
    }
    assert (q - 1) * size == q * size - size;
    assert (q + 1) * size == q * size + size;
    if n > 0 && q == 0 {
      assert false;
    }
  }

  lemma DivisionBounds(a: nat, size: nat)
    requires size > 0
    ensures (a / size) * size <= a < (a / size + 1) * size
  {
    assert a == (a / size) * size + a % size;
    assert (a / size + 1) * size == (a / size) * size + size;
  }

  function FirstPages<T>(groups: seq<T>, pageSize: int, count: nat): seq<T> {
    if count == 0 then [] else FirstPages(groups, pageSize, count - 1) + Paginate(groups, count, pageSize).items
  }

  lemma {:induction false} FirstPagesAreAPrefix<T>(groups: seq<T>, pageSize: int, count: nat)
    requires count <= TotalPages(|groups|, Max(1, pageSize))
    ensures var end := count * Max(1, pageSize);
      FirstPages(groups, pageSize, count) == if end >= |groups| then groups else groups[..end]
  {
    var size := Max(1, pageSize);
    if count > 0 {
      FirstPagesAreAPrefix(groups, pageSize, count - 1);
      var start := StartOf(count, size);
      assert start + size == count * size;
      assert Paginate(groups, count, pageSize).items == Slice(groups, start, start + size);
      SliceExtends(groups, start, start + size);
    }
  }

  lemma SliceExtends<T>(xs: seq<T>, start: nat, end: nat)
    requires start <= end
    ensures (if start >= |xs| then xs else xs[..start]) + Slice(xs, start, end) == if end >= |xs| then xs else xs[..end]
  {
  }

  lemma AllPagesReachEnd(n: nat, size: nat)
    requires size > 0
    ensures TotalPages(n, size) * size >= n
  {
    var total := TotalPages(n, size);
    LastPageReachesEnd(n, size);
    assert total * size == StartOf(total, size) + size;
  }

  /** Turning all pages shows every group once, in order. */
  lemma PagesShowEveryGroup<T>(groups: seq<T>, pageSize: int)
    ensures FirstPages(groups, pageSize, TotalPages(|groups|, Max(1, pageSize))) == groups
  {
    var size := Max(1, pageSize);
    var total := TotalPages(|groups|, size);
    AllPagesReachEnd(|groups|, size);
    FirstPagesAreAPrefix(groups, pageSize, total);
  }

  /** No page is too long or, when there are groups, empty; a page out of range is the nearest one. */
  lemma PageIsBounded<T>(groups: seq<T>, page: int, pageSize: int)
    ensures var p := Paginate(groups, page, pageSize);
      && |p.items| <= p.pageSize && (groups != [] ==> p.items != [])
      && 1 <= p.page <= p.totalPages
      && (1 <= page <= p.totalPages ==> p.page == page)
      && p == Paginate(groups, if page < 1 then 1 else if page > p.totalPages then p.totalPages else page, pageSize)
  {
    var p := Paginate(groups, page, pageSize);
    LastPageReachesEnd(|groups|, p.pageSize);
    StartIsMonotone(p.page, p.totalPages, p.pageSize);
  }

  lemma StartIsMonotone(a: nat, b: nat, size: nat)
    requires 0 < a <= b
    ensures StartOf(a, size) <= StartOf(b, size)
  {
    assert (b - 1) * size == (a - 1) * size + (b - a) * size;
  }
}
