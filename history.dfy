/**
 * The history file of internal/history/history.go: an append-only log of
 * JSON lines and, per group, an in-memory list of items kept newest first
 * together with a map from item id to list node.
 *
 * Each group's linked list is a `seq<Item>` whose index 0 is the head; the
 * `byID` map of nodes is a map from id to the item held by that node. The
 * unexported `id` field of a Go item is recomputed by ItemId wherever the
 * code reads it. JSON encoding is an abstract Codec held by the file.
 */
module History {
  import opened Wrappers
  import opened Text

  /** int64(24 * time.Hour) */
  const NanosPerDay: nat := 86_400_000_000_000

  /** One observation of one check (history.go Item). */
  datatype Item = Item(
    group: string,
    name: string,
    kind: string,          // the Go field Type: "boolean", "metric" or anything else
    output: seq<byte>,
    createdAt: nat,        // CreatedAt.UTC().UnixNano(), nanoseconds after the Unix epoch
    duration: int,         // nanoseconds
    metric: int,
    metricUnit: string,
    status: string,
    error: string)

  /** The number the id ends with: the day for a boolean item, the nanosecond otherwise. */
  function Bucket(item: Item): nat {
    if item.kind == "boolean" then item.createdAt / NanosPerDay else item.createdAt
  }

  /** `fmt.Sprintf("%s\000%s\000%d", Group, Name, bucket)` (history.go:208-212). */
  function ItemId(item: Item): string {
    item.group + [Nul] + item.name + [Nul] + FormatNat(Bucket(item))
  }

  predicate NoNul(s: string) { Nul !in s }

  lemma {:induction false} CancelAtNul(x: string, y: string, x': string, y': string)
    requires NoNul(x) && NoNul(x')
    requires x + [Nul] + y == x' + [Nul] + y'
    ensures x == x' && y == y'
  {
    var s := x + [Nul] + y;
    assert s[..|x|] == x;
    assert (x' + [Nul] + y')[..|x'|] == x';
    IndexOfAt(s, Nul, |x|);
    IndexOfAt(s, Nul, |x'|);
    assert s[|x| + 1..] == y;
    assert (x' + [Nul] + y')[|x'| + 1..] == y';
  }

  /**
   * For names without NUL characters, two items share an id exactly when
   * they belong to the same check and fall in the same bucket: boolean items
   * of one check share an id within a day, other items only within a
   * nanosecond.
   */
  lemma IdsEqualIff(a: Item, b: Item)
    requires NoNul(a.group) && NoNul(a.name) && NoNul(b.group) && NoNul(b.name)
    ensures ItemId(a) == ItemId(b) <==> a.group == b.group && a.name == b.name && Bucket(a) == Bucket(b)
  {
    if ItemId(a) == ItemId(b) {
      assert ItemId(a) == a.group + [Nul] + (a.name + [Nul] + FormatNat(Bucket(a)));
      assert ItemId(b) == b.group + [Nul] + (b.name + [Nul] + FormatNat(Bucket(b)));
      CancelAtNul(a.group, a.name + [Nul] + FormatNat(Bucket(a)), b.group, b.name + [Nul] + FormatNat(Bucket(b)));
      CancelAtNul(a.name, FormatNat(Bucket(a)), b.name, FormatNat(Bucket(b)));
      FormatNatInjective(Bucket(a), Bucket(b));
    }
  }

  /** Items of one check (same group and name) at different nanoseconds, other than boolean ones, never share an id. */
  lemma {:induction false} DistinctTimesDistinctIds(a: Item, b: Item)
    requires a.group == b.group && a.name == b.name
    requires a.kind != "boolean" && b.kind != "boolean" && a.createdAt != b.createdAt
    ensures ItemId(a) != ItemId(b)
  {
    var prefix := a.group + [Nul] + a.name + [Nul];
    assert ItemId(a) == prefix + FormatNat(a.createdAt);
    assert ItemId(b) == prefix + FormatNat(b.createdAt);
    if ItemId(a) == ItemId(b) {
      assert FormatNat(a.createdAt) == ItemId(a)[|prefix|..];
      assert FormatNat(b.createdAt) == ItemId(b)[|prefix|..];
      FormatNatInjective(a.createdAt, b.createdAt);
    }
  }

  // ---------------------------------------------------------------------
  // The per-group container and what addItem does to it
  // ---------------------------------------------------------------------

  /** dataContainer: `list` is the chain from head to tail, `byId` the node map. */
  datatype Container = Container(byId: map<string, Item>, list: seq<Item>)

  const EmptyContainer := Container(map[], [])

  /** File.data: group name to container. */
  type Index = map<string, Container>

  ghost predicate DistinctIds(list: seq<Item>) {
    forall i, j | 0 <= i < j < |list| :: ItemId(list[i]) != ItemId(list[j])
  }

  /** Every node of the chain belongs to the group and is in the map under its own id. */
  ghost predicate Indexed(group: string, c: Container) {
    forall i | 0 <= i < |c.list| ::
      c.list[i].group == group && ItemId(c.list[i]) in c.byId && c.byId[ItemId(c.list[i])] == c.list[i]
  }

  /** Every id in the map is the id of some node of the chain. */
  ghost predicate Covered(c: Container) {
    forall id | id in c.byId :: exists i | 0 <= i < |c.list| :: ItemId(c.list[i]) == id
  }

  /** One node per id, and the map and the chain agree. */
  ghost predicate WellFormed(group: string, c: Container) {
    DistinctIds(c.list) && Indexed(group, c) && Covered(c)
  }

  ghost predicate IndexWellFormed(index: Index) {
    forall g | g in index :: WellFormed(g, index[g])
  }

  /** Newest first: CreatedAt never increases from head to tail. */
  ghost predicate NewestFirst(list: seq<Item>) {
    forall i, j | 0 <= i < j < |list| :: list[i].createdAt >= list[j].createdAt
  }

  /**
   * Where the walk of history.go:230-241 links a new node: before the first
   * node whose CreatedAt is not after `t`, or at the tail when there is none.
   */
  function InsertPos(list: seq<Item>, t: nat): (k: nat)
    ensures k <= |list|
    ensures forall j | 0 <= j < k :: t < list[j].createdAt
    ensures k < |list| ==> list[k].createdAt <= t
  {
    if |list| == 0 || list[0].createdAt <= t then 0 else 1 + InsertPos(list[1..], t)
  }

  /** `node.value = item` on the node that holds `id`. */
  function ReplaceId(list: seq<Item>, id: string, item: Item): seq<Item> {
    seq(|list|, i requires 0 <= i < |list| => if ItemId(list[i]) == id then item else list[i])
  }

  /**
   * addItem on one container (history.go:214-250): an id already present
   * has its node's value replaced in place; a new id gets a fresh node at
   * InsertPos. (As written, a "metric" item with an id already present is
   * linked a second time; see RelinkAsWritten.)
   */
  function AddToContainer(c: Container, item: Item): Container {
    var id := ItemId(item);
    if id in c.byId then
      Container(c.byId[id := item], ReplaceId(c.list, id, item))
    else
      var k := InsertPos(c.list, item.createdAt);
      Container(c.byId[id := item], InsertAt(c.list, k, item))
  }

  /** addItem on the whole index: the item's group gets a container first if it has none. */
  function Add(index: Index, item: Item): Index {
    var c := if item.group in index then index[item.group] else EmptyContainer;
    index[item.group := AddToContainer(c, item)]
  }

  lemma UpdateTwice(index: Index, g: string, first: Container, second: Container)
    ensures index[g := first][g := second] == index[g := second]
  {
  }

  /** addItem applied to each item in turn. */
  function AddAll(index: Index, items: seq<Item>): Index {
    if |items| == 0 then index else Add(AddAll(index, items[..|items| - 1]), items[|items| - 1])
  }

  lemma {:induction false} ReplaceIsUpdate(list: seq<Item>, id: string, item: Item, p: nat)
    requires DistinctIds(list) && p < |list| && ItemId(list[p]) == id
    ensures ReplaceId(list, id, item) == list[p := item]
  {
    var r := ReplaceId(list, id, item);
    forall i | 0 <= i < |list| ensures r[i] == list[p := item][i] {
      if i != p {
        assert ItemId(list[i]) != id by {
          if i < p { assert ItemId(list[i]) != ItemId(list[p]); }
          else { assert ItemId(list[p]) != ItemId(list[i]); }
        }
      }
    }
  }

  function InsertAt(l: seq<Item>, k: nat, item: Item): (l': seq<Item>)
    requires k <= |l|
    ensures |l'| == |l| + 1
    ensures forall i | 0 <= i < k :: l'[i] == l[i]
    ensures l'[k] == item
    ensures forall i | k < i < |l'| :: l'[i] == l[i - 1]
  {
    l[..k] + [item] + l[k..]
  }

  lemma {:induction false} InsertDistinct(l: seq<Item>, k: nat, item: Item)
    requires k <= |l| && DistinctIds(l)
    requires forall i | 0 <= i < |l| :: ItemId(l[i]) != ItemId(item)
    ensures DistinctIds(InsertAt(l, k, item))
  {
    var l' := InsertAt(l, k, item);
    forall i, j | 0 <= i < j < |l'| ensures ItemId(l'[i]) != ItemId(l'[j]) {
      if j < k {
      } else if j == k {
      } else if i < k {
        assert l'[j] == l[j - 1];
      } else if i == k {
        assert l'[j] == l[j - 1];
      } else {
        assert l'[i] == l[i - 1] && l'[j] == l[j - 1];
      }
    }
  }

  lemma {:induction false} InsertIndexed(g: string, c: Container, k: nat, item: Item)
    requires k <= |c.list| && Indexed(g, c) && item.group == g
    requires forall i | 0 <= i < |c.list| :: ItemId(c.list[i]) != ItemId(item)
    ensures Indexed(g, Container(c.byId[ItemId(item) := item], InsertAt(c.list, k, item)))
  {
    var l' := InsertAt(c.list, k, item);
    var m' := c.byId[ItemId(item) := item];
    forall i | 0 <= i < |l'| ensures l'[i].group == g && ItemId(l'[i]) in m' && m'[ItemId(l'[i])] == l'[i] {
      if i < k {
        assert l'[i] == c.list[i];
      } else if k < i {
        assert l'[i] == c.list[i - 1];
      }
    }
  }

  lemma {:induction false} InsertCovered(c: Container, k: nat, item: Item)
    requires k <= |c.list| && Covered(c)
    ensures Covered(Container(c.byId[ItemId(item) := item], InsertAt(c.list, k, item)))
  {
    var l' := InsertAt(c.list, k, item);
    var m' := c.byId[ItemId(item) := item];
    forall key | key in m' ensures exists i | 0 <= i < |l'| :: ItemId(l'[i]) == key {
      if key == ItemId(item) {
        assert ItemId(l'[k]) == key;
      } else {
        var i :| 0 <= i < |c.list| && ItemId(c.list[i]) == key;
        if i < k { assert ItemId(l'[i]) == key; } else { assert ItemId(l'[i + 1]) == key; }
      }
    }
  }

  lemma {:induction false} InsertKeepsWellFormed(g: string, c: Container, item: Item)
    requires WellFormed(g, c) && item.group == g && ItemId(item) !in c.byId
    ensures WellFormed(g, AddToContainer(c, item))
  {
    var k := InsertPos(c.list, item.createdAt);
    assert AddToContainer(c, item) == Container(c.byId[ItemId(item) := item], InsertAt(c.list, k, item));
    forall i | 0 <= i < |c.list| ensures ItemId(c.list[i]) != ItemId(item) {
      assert ItemId(c.list[i]) in c.byId;
    }
    InsertDistinct(c.list, k, item);
    InsertIndexed(g, c, k, item);
    InsertCovered(c, k, item);
  }

  lemma {:induction false} ReplaceDistinct(l: seq<Item>, p: nat, item: Item)
    requires p < |l| && DistinctIds(l) && ItemId(item) == ItemId(l[p])
    ensures DistinctIds(l[p := item])
  {
    var l' := l[p := item];
    forall i, j | 0 <= i < j < |l'| ensures ItemId(l'[i]) != ItemId(l'[j]) {
      assert ItemId(l[i]) != ItemId(l[j]);
      assert ItemId(l'[i]) == ItemId(l[i]) && ItemId(l'[j]) == ItemId(l[j]);
    }
  }

  lemma {:induction false} ReplaceIndexed(g: string, c: Container, p: nat, item: Item)
    requires p < |c.list| && DistinctIds(c.list) && Indexed(g, c)
    requires item.group == g && ItemId(item) == ItemId(c.list[p])
    ensures Indexed(g, Container(c.byId[ItemId(item) := item], c.list[p := item]))
  {
    var id := ItemId(item);
    var l' := c.list[p := item];
    var m' := c.byId[id := item];
    forall i | 0 <= i < |l'| ensures l'[i].group == g && ItemId(l'[i]) in m' && m'[ItemId(l'[i])] == l'[i] {
      if i != p {
        assert ItemId(c.list[i]) != id by {
          if i < p { assert ItemId(c.list[i]) != ItemId(c.list[p]); }
          else { assert ItemId(c.list[p]) != ItemId(c.list[i]); }
        }
      }
    }
  }

  lemma {:induction false} ReplaceCovered(c: Container, p: nat, item: Item)
    requires p < |c.list| && Covered(c) && ItemId(item) == ItemId(c.list[p])
    ensures Covered(Container(c.byId[ItemId(item) := item], c.list[p := item]))
  {
    var l' := c.list[p := item];
    var m' := c.byId[ItemId(item) := item];
    forall key | key in m' ensures exists i | 0 <= i < |l'| :: ItemId(l'[i]) == key {
      if key == ItemId(item) {
        assert ItemId(l'[p]) == key;
      } else {
        var i :| 0 <= i < |c.list| && ItemId(c.list[i]) == key;
        assert l'[i] == c.list[i];
      }
    }
  }

  lemma {:induction false} ReplaceKeepsWellFormed(g: string, c: Container, item: Item)
    requires WellFormed(g, c) && item.group == g && ItemId(item) in c.byId
    ensures WellFormed(g, AddToContainer(c, item))
  {
    var id := ItemId(item);
    var p :| 0 <= p < |c.list| && ItemId(c.list[p]) == id;
    ReplaceIsUpdate(c.list, id, item, p);
    assert AddToContainer(c, item) == Container(c.byId[id := item], c.list[p := item]);
    ReplaceDistinct(c.list, p, item);
    ReplaceIndexed(g, c, p, item);
    ReplaceCovered(c, p, item);
  }

  /** addItem keeps every container well formed: one node per id, and the map and the chain agree. */
  lemma AddKeepsWellFormed(index: Index, item: Item)
    requires IndexWellFormed(index)
    ensures IndexWellFormed(Add(index, item))
  {
    var c := if item.group in index then index[item.group] else EmptyContainer;
    if ItemId(item) in c.byId {
      ReplaceKeepsWellFormed(item.group, c, item);
    } else {
      InsertKeepsWellFormed(item.group, c, item);
    }
  }

  lemma {:induction false} AddAllKeepsWellFormed(index: Index, items: seq<Item>)
    requires IndexWellFormed(index)
    ensures IndexWellFormed(AddAll(index, items))
  {
    if |items| > 0 {
      AddAllKeepsWellFormed(index, items[..|items| - 1]);
      AddKeepsWellFormed(AddAll(index, items[..|items| - 1]), items[|items| - 1]);
    }
  }

  /**
   * Upsert (history.go:214-219, 248-250): an item whose id is already
   * present replaces exactly one node's value; the chain keeps its length
   * and its order of ids, and that node now holds the newer item.
   */
  lemma UpsertReplacesInPlace(index: Index, item: Item)
    requires IndexWellFormed(index)
    requires item.group in index && ItemId(item) in index[item.group].byId
    ensures var before := index[item.group].list;
            var after := Add(index, item)[item.group].list;
            exists p | 0 <= p < |before| :: ItemId(before[p]) == ItemId(item) && after == before[p := item]
  {
    var c := index[item.group];
    var id := ItemId(item);
    var p :| 0 <= p < |c.list| && ItemId(c.list[p]) == id;
    ReplaceIsUpdate(c.list, id, item, p);
  }

  /**
   * Insert (history.go:221-247): a new id gets one new node, placed before
   * the first node whose CreatedAt is not after it, else at the tail; a
   * newest-first chain stays newest first.
   */
  lemma InsertSorted(index: Index, item: Item)
    requires item.group !in index || ItemId(item) !in index[item.group].byId
    ensures var before := if item.group in index then index[item.group].list else [];
            var after := Add(index, item)[item.group].list;
            && |after| == |before| + 1
            && (exists k | 0 <= k <= |before| ::
                  && after == InsertAt(before, k, item)
                  && (forall j | 0 <= j < k :: item.createdAt < before[j].createdAt)
                  && (k < |before| ==> before[k].createdAt <= item.createdAt))
            && (NewestFirst(before) ==> NewestFirst(after))
  {
    var before := if item.group in index then index[item.group].list else [];
    var k := InsertPos(before, item.createdAt);
    if NewestFirst(before) {
      InsertPosKeepsNewestFirst(before, item);
    }
  }

  lemma {:induction false} InsertPosKeepsNewestFirst(l: seq<Item>, item: Item)
    requires NewestFirst(l)
    ensures NewestFirst(InsertAt(l, InsertPos(l, item.createdAt), item))
  {
    var k := InsertPos(l, item.createdAt);
    var l' := InsertAt(l, k, item);
    forall i, j | 0 <= i < j < |l'| ensures l'[i].createdAt >= l'[j].createdAt {
      if j < k {
      } else if j == k {
      } else if i < k {
        assert l'[j] == l[j - 1];
      } else if i == k {
        assert l'[j] == l[j - 1];
      } else {
        assert l'[i] == l[i - 1] && l'[j] == l[j - 1];
      }
    }
  }

  /** Every other group's container, and every other id of this group, is left as it was. */
  lemma AddChangesOnlyItsId(index: Index, item: Item)
    ensures var after := Add(index, item);
            && after.Keys == index.Keys + {item.group}
            && (forall g | g in index && g != item.group :: after[g] == index[g])
            && after[item.group].byId[ItemId(item)] == item
            && (forall id | id != ItemId(item) ::
                  (item.group in index && id in index[item.group].byId) <==> id in after[item.group].byId)
            && (forall id | item.group in index && id in index[item.group].byId && id != ItemId(item) ::
                  after[item.group].byId[id] == index[item.group].byId[id])
  {
  }

  function Reversed(s: seq<Item>): seq<Item> {
    if |s| == 0 then [] else [s[|s| - 1]] + Reversed(s[..|s| - 1])
  }

  /**
   * Items of one non-boolean check added with strictly increasing
   * timestamps read back newest first (history_test.go:54-60).
   */
  lemma {:induction false} IncreasingReadsBackNewestFirst(items: seq<Item>)
    requires |items| > 0
    requires forall i | 0 <= i < |items| ::
               items[i].group == items[0].group && items[i].name == items[0].name && items[i].kind != "boolean"
    requires forall i | 0 < i < |items| :: items[i - 1].createdAt < items[i].createdAt
    ensures items[0].group in AddAll(map[], items)
    ensures AddAll(map[], items)[items[0].group].list == Reversed(items)
  {
    var n := |items|;
    var last := items[n - 1];
    var init := items[..n - 1];
    AddAllKeepsWellFormed(map[], init);
    var index := AddAll(map[], init);
    assert AddAll(map[], items) == Add(index, last);
    if n == 1 {
      assert init == [];
      assert Reversed(items) == [last];
      AddNewest(index, last);
    } else {
      assert forall i | 0 <= i < |init| :: init[i] == items[i];
      IncreasingReadsBackNewestFirst(init);
      LastGoesFirst(items);
    }
  }

  /** With the earlier items read back newest first, the last one goes in front of them all. */
  lemma LastGoesFirst(items: seq<Item>)
    requires |items| > 1
    requires forall i | 0 <= i < |items| ::
               items[i].group == items[0].group && items[i].name == items[0].name && items[i].kind != "boolean"
    requires forall i | 0 < i < |items| :: items[i - 1].createdAt < items[i].createdAt
    requires var index := AddAll(map[], items[..|items| - 1]);
             items[0].group in index && index[items[0].group].list == Reversed(items[..|items| - 1])
    ensures Add(AddAll(map[], items[..|items| - 1]), items[|items| - 1])[items[0].group].list
            == [items[|items| - 1]] + Reversed(items[..|items| - 1])
  {
    var n := |items|;
    var last := items[n - 1];
    var init := items[..n - 1];
    AddAllKeepsWellFormed(map[], init);
    var index := AddAll(map[], init);
    var list := index[last.group].list;
    ReversedMembers(init);
    forall x | x in list ensures x.createdAt < last.createdAt && ItemId(x) != ItemId(last) {
      var i :| 0 <= i < |init| && init[i] == x;
      EarlierItemDiffers(items, i);
    }
    AddNewest(index, last);
  }

  /** In such a sequence, an earlier item is older than the last one and has another id. */
  lemma EarlierItemDiffers(items: seq<Item>, i: nat)
    requires i < |items| - 1
    requires forall i | 0 <= i < |items| ::
               items[i].group == items[0].group && items[i].name == items[0].name && items[i].kind != "boolean"
    requires forall i | 0 < i < |items| :: items[i - 1].createdAt < items[i].createdAt
    ensures items[i].createdAt < items[|items| - 1].createdAt && ItemId(items[i]) != ItemId(items[|items| - 1])
  {
    IncreasingBefore(items, i, |items| - 1);
    DistinctTimesDistinctIds(items[i], items[|items| - 1]);
  }

  /** An item newer than every item of its group, with a fresh id, becomes the head of the chain. */
  lemma AddNewest(index: Index, item: Item)
    requires IndexWellFormed(index)
    requires item.group in index ==>
               forall x | x in index[item.group].list :: x.createdAt < item.createdAt && ItemId(x) != ItemId(item)
    ensures Add(index, item)[item.group].list == [item] + (if item.group in index then index[item.group].list else [])
  {
    var c := if item.group in index then index[item.group] else EmptyContainer;
    forall i | 0 <= i < |c.list| ensures ItemId(c.list[i]) != ItemId(item) {
      assert c.list[i] in c.list;
    }
    assert ItemId(item) !in c.byId;
    if |c.list| > 0 {
      assert c.list[0] in c.list;
    }
    assert InsertPos(c.list, item.createdAt) == 0;
  }

  lemma {:induction false} ReversedMembers(s: seq<Item>)
    ensures forall x :: x in Reversed(s) <==> x in s
    ensures |Reversed(s)| == |s|
  {
    if |s| > 0 {
      ReversedMembers(s[..|s| - 1]);
      assert s == s[..|s| - 1] + [s[|s| - 1]];
    }
  }

  lemma {:induction false} IncreasingBefore(items: seq<Item>, i: nat, j: nat)
    requires i < j < |items|
    requires forall k | 0 < k < |items| :: items[k - 1].createdAt < items[k].createdAt
    ensures items[i].createdAt < items[j].createdAt
  {
    if i + 1 < j {
      IncreasingBefore(items, i, j - 1);
    }
  }

  /**
   * Because an upsert keeps the node where it was but takes the newer
   * CreatedAt, a group's chain need not stay newest first: a check's
   * boolean item updated later the same day can end up behind an older
   * item of another check.
   */
  lemma UpsertCanBreakNewestFirst(x: Item, y: Item, y2: Item)
    requires x.group == y.group == y2.group
    requires ItemId(x) != ItemId(y) && ItemId(y2) == ItemId(y)
    requires y.createdAt < x.createdAt < y2.createdAt
    ensures NewestFirst(Add(Add(map[], y), x)[y.group].list)
    ensures !NewestFirst(Add(Add(Add(map[], y), x), y2)[y.group].list)
  {
    var g := y.group;
    var i2 := Add(Add(map[], y), x);
    TwoItemsNewestFirst(x, y);
    UpsertReplacesInPlace(i2, y2);
    var after := Add(i2, y2)[g].list;
    assert after == [x, y2] by {
      var p :| 0 <= p < 2 && ItemId([x, y][p]) == ItemId(y2) && after == [x, y][p := y2];
      assert p == 1;
    }
    assert after[0].createdAt < after[1].createdAt;
  }

  /** An item added after an older one of its group goes in front of it. */
  lemma TwoItemsNewestFirst(x: Item, y: Item)
    requires x.group == y.group && ItemId(x) != ItemId(y) && y.createdAt < x.createdAt
    ensures var i2 := Add(Add(map[], y), x);
            && IndexWellFormed(i2) && y.group in i2 && i2[y.group].list == [x, y]
            && NewestFirst(i2[y.group].list) && ItemId(y) in i2[y.group].byId
  {
    TwoItemsInNewGroup(map[], x, y);
  }

  lemma TwoItemsInNewGroup(index: Index, x: Item, y: Item)
    requires IndexWellFormed(index) && y.group !in index
    requires x.group == y.group && ItemId(x) != ItemId(y) && y.createdAt < x.createdAt
    ensures var i2 := Add(Add(index, y), x);
            && IndexWellFormed(i2) && y.group in i2 && i2[y.group].list == [x, y]
            && NewestFirst(i2[y.group].list) && ItemId(y) in i2[y.group].byId
  {
    FirstOfGroup(index, y);
    SecondOfGroup(Add(index, y), x, y);
  }

  lemma FirstOfGroup(index: Index, y: Item)
    requires IndexWellFormed(index) && y.group !in index
    ensures IndexWellFormed(Add(index, y)) && y.group in Add(index, y) && Add(index, y)[y.group].list == [y]
  {
    AddNewest(index, y);
    AddKeepsWellFormed(index, y);
  }

  lemma SecondOfGroup(i1: Index, x: Item, y: Item)
    requires IndexWellFormed(i1) && y.group in i1 && i1[y.group].list == [y]
    requires x.group == y.group && ItemId(x) != ItemId(y) && y.createdAt < x.createdAt
    ensures var i2 := Add(i1, x);
            && IndexWellFormed(i2) && y.group in i2 && i2[y.group].list == [x, y]
            && NewestFirst(i2[y.group].list) && ItemId(y) in i2[y.group].byId
  {
    AddNewest(i1, x);
    AddKeepsWellFormed(i1, x);
    var c := Add(i1, x)[y.group];
    assert c.list == [x] + [y] == [x, y];
    PairNewestFirst(x, y);
    assert WellFormed(y.group, c);
    assert Indexed(y.group, c);
    assert ItemId(c.list[1]) in c.byId;
  }

  lemma PairNewestFirst(x: Item, y: Item)
    requires y.createdAt < x.createdAt
    ensures NewestFirst([x, y])
  {
  }

  /** Such items exist: a metric of one check between two same-day runs of a boolean check. */
  lemma SameDayRunsShareAnId()
    ensures var x := Item("g", "x", "metric", [], 5, 0, 0, "", "healthy", "");
            var y := Item("g", "y", "boolean", [], 3, 0, 0, "", "healthy", "");
            ItemId(x) != ItemId(y) && ItemId(y.(createdAt := 7)) == ItemId(y)
  {
    var x := Item("g", "x", "metric", [], 5, 0, 0, "", "healthy", "");
    var y := Item("g", "y", "boolean", [], 3, 0, 0, "", "healthy", "");
    assert Bucket(y) == 0 && Bucket(y.(createdAt := 7)) == 0;
    assert ItemId(x)[2] == 'x' && ItemId(y)[2] == 'y';
  }

  // ---------------------------------------------------------------------
  // As written: re-adding a metric whose id is already indexed
  // ---------------------------------------------------------------------

  /** The next pointers of a chain of nodes 0..n-1: node i points to i+1; -1 is nil. */
  datatype Links = Links(head: int, next: seq<int>)

  function ChainLinks(n: nat): (l: Links)
    ensures |l.next| == n
  {
    Links(if n == 0 then -1 else 0, seq(n, i requires 0 <= i < n => if i + 1 < n then i + 1 else -1))
  }

  /** The node reached from `from` after following `steps` next pointers. */
  function Follow(next: seq<int>, from: int, steps: nat): int
    decreases steps
  {
    if steps == 0 || from < 0 || from >= |next| then from else Follow(next, next[from], steps - 1)
  }

  /**
   * history.go:214-241 as written when a "metric" item arrives whose id is
   * already the id of node p of the chain: `exists` is true, but the
   * `item.Type == "metric" || !exists` branch walks the chain again. The
   * walk stops at the first node k whose CreatedAt is not after the item's
   * (k <= p, as node p has the same CreatedAt) and links node p in front of
   * node k, without unlinking it from where it already is.
   */
  function RelinkAsWritten(list: seq<Item>, p: nat): (l: Links)
    requires p < |list|
    ensures |l.next| == |list|
  {
    Relink(|list|, InsertPos(list, list[p].createdAt), p)
  }

  /** Node p of a chain of n nodes linked again in front of node k. */
  function Relink(n: nat, k: nat, p: nat): (l: Links)
    requires k <= n && p < n
    ensures |l.next| == n
  {
    var chain := ChainLinks(n);
    if k == 0 then
      Links(p, chain.next[p := chain.head])                        // node.next = head; head = node
    else
      Links(chain.head, chain.next[p := chain.next[k - 1]][k - 1 := p])  // node.next = prev.next; prev.next = node
  }

  lemma {:induction false} FollowChain(next: seq<int>, i: nat, j: nat)
    requires i <= j < |next|
    requires forall m | i <= m < j :: next[m] == m + 1
    ensures Follow(next, i, j - i) == j
    decreases j - i
  {
    if i < j {
      FollowChain(next, i + 1, j);
    }
  }

  /**
   * As written, the re-link makes the chain cyclic: node p is reached from
   * the head and, |p - k| + 1 pointers later, from itself again (a self loop
   * when k == p), so the walk of GetGroupItems never reaches nil.
   */
  lemma RelinkAsWrittenCycles(list: seq<Item>, p: nat)
    requires p < |list|
    ensures var l := RelinkAsWritten(list, p);
            var k := InsertPos(list, list[p].createdAt);
            && k <= p
            && Follow(l.next, l.head, k) == p
            && Follow(l.next, p, p - k + 1) == p
  {
    var k := InsertPos(list, list[p].createdAt);
    InsertPosBefore(list, p);
    RelinkLoops(|list|, k, p);
    assert RelinkAsWritten(list, p) == Relink(|list|, k, p);
  }

  lemma RelinkLoops(n: nat, k: nat, p: nat)
    requires k <= p < n
    ensures var l := Relink(n, k, p);
            && Follow(l.next, l.head, k) == p
            && Follow(l.next, p, p - k + 1) == p
  {
    var chain := ChainLinks(n);
    var l := Relink(n, k, p);
    forall m | 0 <= m < p ensures chain.next[m] == m + 1 {
    }
    if k == 0 {
      assert l.head == p;
      RelinkedLoop(l.next, k, p);
    } else {
      assert l.head == 0;
      forall m | 0 <= m < p && m != k - 1 ensures l.next[m] == m + 1 {
        assert l.next[m] == chain.next[m];
      }
      RelinkedLoop(l.next, k, p);
      FollowChain(l.next, 0, k - 1);
      FollowLast(l.next, 0, k - 1);
    }
  }

  /** The walk for an item with node p's CreatedAt stops at or before node p. */
  lemma InsertPosBefore(list: seq<Item>, p: nat)
    requires p < |list|
    ensures InsertPos(list, list[p].createdAt) <= p
  {
    var t := list[p].createdAt;
    assert forall j | 0 <= j < InsertPos(list, t) :: t < list[j].createdAt;
  }

  /** A node p pointing back to k, with k..p-1 chained forwards, is on a loop of p - k + 1 pointers. */
  lemma {:induction false} RelinkedLoop(next: seq<int>, k: nat, p: nat)
    requires k <= p < |next| && next[p] == k
    requires forall m | k <= m < p :: next[m] == m + 1
    ensures Follow(next, p, p - k + 1) == p
  {
    FollowChain(next, k, p);
  }

  lemma {:induction false} FollowLast(next: seq<int>, from: int, steps: nat)
    requires 0 <= Follow(next, from, steps) < |next|
    ensures Follow(next, from, steps + 1) == next[Follow(next, from, steps)]
    decreases steps
  {
    if steps > 0 && 0 <= from < |next| {
      FollowLast(next, next[from], steps - 1);
    }
  }

  // ---------------------------------------------------------------------
  // The log file: lines, replay and serialisation
  // ---------------------------------------------------------------------

  /** json.Marshal / json.Unmarshal of an Item; a failed Marshal or Unmarshal is None. */
  datatype Codec = Codec(encode: Item -> Option<seq<byte>>, decode: seq<byte> -> Option<Item>)

  /** The round trip JSON is relied on for: an encoded item has no raw newline and decodes to itself. */
  ghost predicate Sound(codec: Codec) {
    forall item :: codec.encode(item).Some? ==>
      Newline !in codec.encode(item).value && codec.decode(codec.encode(item).value) == Some(item)
  }

  /** writeTo (history.go:45-55): the JSON text followed by '\n', or the Marshal error. */
  function WriteTo(codec: Codec, item: Item): Option<seq<byte>> {
    match codec.encode(item)
    case None => None
    case Some(data) => Some(data + [Newline])
  }

  /** The file is empty or its last line is terminated. */
  predicate Clean(content: seq<byte>) {
    |content| == 0 || content[|content| - 1] == Newline
  }

  /** Where bufio's ReadBytes('\n') starting at `pos` stops: just after the next newline, or at the end. */
  function LineEnd(content: seq<byte>, pos: nat): (e: nat)
    requires pos <= |content|
    ensures pos <= e <= |content|
    ensures pos < |content| ==> pos < e
    ensures e < |content| ==> content[e - 1] == Newline
    ensures pos < e && content[e - 1] != Newline ==> e == |content|
    decreases |content| - pos
  {
    if pos == |content| then pos else if content[pos] == Newline then pos + 1 else LineEnd(content, pos + 1)
  }

  /** The successive results of ReadBytes('\n') from `pos` on; none of them is empty. */
  function LinesFrom(content: seq<byte>, pos: nat): seq<seq<byte>>
    requires pos <= |content|
    decreases |content| - pos
  {
    if pos == |content| then [] else
      var e := LineEnd(content, pos);
      [content[pos..e]] + LinesFrom(content, e)
  }

  datatype OpenError = OpenFailed(reason: string) | UnmarshalFailed

  /** NewOptions (history.go:90-94): the file to open and two settings the shown code stores or ignores. */
  datatype NewOptions = NewOptions(file: string, maxEntries: int, maxConcurrentWrites: int)

  /** The replay loop of New (history.go:117-128) over the lines read so far. */
  function ReplayLines(decode: seq<byte> -> Option<Item>, lines: seq<seq<byte>>): Result<Index, OpenError> {
    if |lines| == 0 then Success(map[])
    else
      match ReplayLines(decode, lines[..|lines| - 1])
      case Failure(e) => Failure(e)
      case Success(index) =>
        var line := lines[|lines| - 1];
        if |line| == 0 then Success(index)
        else
          match decode(line[..|line| - 1])
          case None => Failure(UnmarshalFailed)
          case Some(item) => Success(Add(index, item))
  }

  /** What opening a file with these contents builds. */
  function Replay(decode: seq<byte> -> Option<Item>, content: seq<byte>): Result<Index, OpenError> {
    ReplayLines(decode, LinesFrom(content, 0))
  }

  /** A single line that does not unmarshal makes the whole open fail. */
  lemma {:induction false} BadLineAbortsReplay(decode: seq<byte> -> Option<Item>, lines: seq<seq<byte>>, i: nat)
    requires i < |lines| && |lines[i]| > 0 && decode(lines[i][..|lines[i]| - 1]).None?
    ensures ReplayLines(decode, lines).Failure?
  {
    if i < |lines| - 1 {
      BadLineAbortsReplay(decode, lines[..|lines| - 1], i);
    }
  }

  lemma {:induction false} LineEndIgnoresSuffix(log: seq<byte>, ext: seq<byte>, pos: nat)
    requires pos < |log| && log[|log| - 1] == Newline
    ensures LineEnd(log + ext, pos) == LineEnd(log, pos)
    decreases |log| - pos
  {
    assert (log + ext)[pos] == log[pos];
    if log[pos] != Newline {
      LineEndIgnoresSuffix(log, ext, pos + 1);
    }
  }

  lemma {:induction false} LineEndOfLastLine(s: seq<byte>, from: nat)
    requires from < |s| && s[|s| - 1] == Newline
    requires forall i | from <= i < |s| - 1 :: s[i] != Newline
    ensures LineEnd(s, from) == |s|
    decreases |s| - from
  {
    if s[from] != Newline {
      LineEndOfLastLine(s, from + 1);
    }
  }

  lemma {:induction false} LinesAppendFrom(log: seq<byte>, line: seq<byte>, pos: nat)
    requires Clean(log) && Newline !in line && pos <= |log|
    ensures LinesFrom(log + line + [Newline], pos) == LinesFrom(log, pos) + [line + [Newline]]
    decreases |log| - pos
  {
    var s := log + line + [Newline];
    var ext := line + [Newline];
    assert s == log + ext;
    if pos == |log| {
      forall i | pos <= i < |s| - 1 ensures s[i] != Newline {
        assert s[i] == line[i - |log|];
      }
      LineEndOfLastLine(s, pos);
      assert s[pos..|s|] == ext;
    } else {
      LineEndIgnoresSuffix(log, ext, pos);
      var e := LineEnd(log, pos);
      assert s[pos..e] == log[pos..e];
      LinesAppendFrom(log, line, e);
    }
  }

  function AllEncodable(codec: Codec, items: seq<Item>): bool {
    forall i | 0 <= i < |items| :: codec.encode(items[i]).Some?
  }

  /** The bytes a batch puts into the write buffer: each record's writeTo in turn. */
  function EncodeAll(codec: Codec, items: seq<Item>): seq<byte>
    requires AllEncodable(codec, items)
  {
    if |items| == 0 then [] else EncodeAll(codec, items[..|items| - 1]) + WriteTo(codec, items[|items| - 1]).value
  }

  /** The lines a batch adds to the file, one per record. */
  function EncodedLines(codec: Codec, items: seq<Item>): seq<seq<byte>>
    requires AllEncodable(codec, items)
  {
    if |items| == 0 then [] else EncodedLines(codec, items[..|items| - 1]) + [WriteTo(codec, items[|items| - 1]).value]
  }

  lemma {:induction false} AllEncodableInit(codec: Codec, items: seq<Item>)
    requires |items| > 0 && AllEncodable(codec, items)
    ensures AllEncodable(codec, items[..|items| - 1])
  {
    var init := items[..|items| - 1];
    forall i | 0 <= i < |init| ensures codec.encode(init[i]).Some? { assert init[i] == items[i]; }
  }

  /** Appending a batch to a clean file appends exactly its lines. */
  lemma {:induction false} WriteAppendsLines(codec: Codec, log: seq<byte>, items: seq<Item>)
    requires Sound(codec) && Clean(log) && AllEncodable(codec, items)
    ensures Clean(log + EncodeAll(codec, items))
    ensures LinesFrom(log + EncodeAll(codec, items), 0) == LinesFrom(log, 0) + EncodedLines(codec, items)
  {
    if |items| == 0 {
      assert log + EncodeAll(codec, items) == log;
    } else {
      var init := items[..|items| - 1];
      var last := items[|items| - 1];
      AllEncodableInit(codec, items);
      WriteAppendsLines(codec, log, init);
      var prefix := log + EncodeAll(codec, init);
      var data := codec.encode(last).value;
      assert Newline !in data;
      assert WriteTo(codec, last).value == data + [Newline];
      assert EncodeAll(codec, items) == EncodeAll(codec, init) + (data + [Newline]);
      assert EncodedLines(codec, items) == EncodedLines(codec, init) + [data + [Newline]];
      Regroup(log, EncodeAll(codec, init), data, [Newline]);
      assert log + EncodeAll(codec, items) == prefix + data + [Newline];
      LinesAppendFrom(prefix, data, 0);
      Regroup(LinesFrom(log, 0), EncodedLines(codec, init), [data + [Newline]], []);
    }
  }

  /** Concatenation regrouped: a + (b + (c + d)) is a + b + c + d. */
  lemma Regroup<T>(a: seq<T>, b: seq<T>, c: seq<T>, d: seq<T>)
    ensures a + (b + (c + d)) == a + b + c + d
    ensures a + (b + c) == a + b + c
  {
  }

  /** Replaying a batch's lines after a replayable prefix adds its items in order. */
  lemma {:induction false} ReplayEncodedLines(codec: Codec, lines: seq<seq<byte>>, index: Index, items: seq<Item>)
    requires Sound(codec) && ReplayLines(codec.decode, lines) == Success(index) && AllEncodable(codec, items)
    ensures ReplayLines(codec.decode, lines + EncodedLines(codec, items)) == Success(AddAll(index, items))
  {
    if |items| == 0 {
      assert lines + EncodedLines(codec, items) == lines;
    } else {
      var init := items[..|items| - 1];
      var last := items[|items| - 1];
      AllEncodableInit(codec, items);
      ReplayEncodedLines(codec, lines, index, init);
      var before := lines + EncodedLines(codec, init);
      var line := WriteTo(codec, last).value;
      assert lines + EncodedLines(codec, items) == before + [line];
      assert (before + [line])[..|before|] == before;
      assert line[..|line| - 1] == codec.encode(last).value;
    }
  }

  /**
   * Writing a batch to a clean file and then indexing it (history.go:175-185)
   * keeps the index equal to what reopening the file would rebuild: the
   * batch replays exactly as one addItem per record, in order.
   */
  lemma WriteKeepsReplay(codec: Codec, log: seq<byte>, index: Index, items: seq<Item>)
    requires Sound(codec) && Clean(log) && Replay(codec.decode, log) == Success(index)
    requires AllEncodable(codec, items)
    ensures Clean(log + EncodeAll(codec, items))
    ensures Replay(codec.decode, log + EncodeAll(codec, items)) == Success(AddAll(index, items))
  {
    WriteAppendsLines(codec, log, items);
    ReplayEncodedLines(codec, LinesFrom(log, 0), index, items);
  }

  /** The index of the first item that does not serialise, or |items|. */
  function FirstUnencodable(codec: Codec, items: seq<Item>): (p: nat)
    ensures p <= |items|
    ensures AllEncodable(codec, items[..p])
    ensures p < |items| ==> codec.encode(items[p]).None?
  {
    if |items| == 0 || codec.encode(items[0]).None? then 0
    else
      var p := 1 + FirstUnencodable(codec, items[1..]);
      assert forall i | 1 <= i < p :: items[..p][i] == items[1..][..p - 1][i - 1];
      p
  }

  /**
   * The requests one pass of the writer takes, when the collection loop of
   * history.go:160-171 runs as evidently intended (while no error): the
   * first request, then queued ones up to and including the first that does
   * not serialise.
   */
  function Batch(codec: Codec, req: Item, queued: seq<Item>): seq<Item> {
    if codec.encode(req).None? then [req]
    else
      var p := FirstUnencodable(codec, queued);
      if p < |queued| then [req] + queued[..p + 1] else [req] + queued
  }

  /**
   * history.go:160-171 as written: requests are gathered while
   * `collect && err != nil`, and err starts nil; a gathered request would
   * re-serialise `req.item`, not its own item.
   */
  function CollectAsWritten(codec: Codec, req: Item, queued: seq<Item>, records: seq<Item>, collect: bool, failed: bool): seq<Item>
    decreases |queued|
  {
    if collect && failed then
      if |queued| == 0 then records
      else CollectAsWritten(codec, req, queued[1..], records + [queued[0]], true, WriteTo(codec, req).None?)
    else records
  }

  /** As written, every pass of the writer takes exactly one request, whatever is queued behind it. */
  lemma AsWrittenTakesOneRequest(codec: Codec, req: Item, queued: seq<Item>)
    ensures CollectAsWritten(codec, req, queued, [req], true, false) == [req]
  {
  }

  /**
   * The two loops differ whenever a request is queued behind one that
   * serialises: the intended one takes at least the first queued request,
   * and all of them when they all serialise.
   */
  lemma BatchTakesQueued(codec: Codec, req: Item, queued: seq<Item>)
    requires codec.encode(req).Some? && |queued| > 0
    ensures |Batch(codec, req, queued)| >= 2 && Batch(codec, req, queued)[1] == queued[0]
    ensures Batch(codec, req, queued) != CollectAsWritten(codec, req, queued, [req], true, false)
    ensures AllEncodable(codec, queued) ==> Batch(codec, req, queued) == [req] + queued
  {
    if AllEncodable(codec, queued) {
      assert FirstUnencodable(codec, queued) == |queued|;
    }
  }

  /** The answer on a write request's errChan; Blocked when the writer waits for good on a lock never released. */
  datatype Ack = Written | SerialiseFailed | CopyPanicked | Blocked

  /** What a reader gets: Waiting when its RLock waits for good on a write lock never released. */
  datatype Read<T> = Waiting | Got(value: T)

  // ---------------------------------------------------------------------
  // The file object
  // ---------------------------------------------------------------------

  class HistoryFile {
    const codec: Codec
    /** NewOptions.MaxEntries: stored (history.go:113) and never read. */
    const maxEntries: int
    /** File.data */
    var data: Index
    /** The bytes of the file; reading it to the end leaves writes appending. */
    var log: seq<byte>
    /** rwMux is held by a pass of the writer that returned without releasing it. */
    var writeLocked: bool

    ghost predicate Valid()
      reads this
    {
      IndexWellFormed(data)
    }

    /** The index is what reopening the file would rebuild (write before index). */
    ghost predicate Durable()
      reads this
    {
      Valid() && Sound(codec) && Clean(log) && Replay(codec.decode, log) == Success(data)
    }

    constructor Init(codec: Codec, maxEntries: int, content: seq<byte>)
      ensures Valid() && this.codec == codec && this.maxEntries == maxEntries
      ensures data == map[] && log == content && !writeLocked
    {
      this.codec := codec;
      this.maxEntries := maxEntries;
      data := map[];
      log := content;
      writeLocked := false;
    }

    /**
     * New (history.go:96-143): open the file and replay every line through
     * addItem in file order; a line that does not unmarshal aborts the open.
     */
    static method New(codec: Codec, maxEntries: int, openResult: Result<seq<byte>, string>) returns (r: Result<HistoryFile, OpenError>)
      ensures openResult.Failure? ==> r == Failure(OpenFailed(openResult.error))
      ensures openResult.Success? ==> (r.Success? <==> Replay(codec.decode, openResult.value).Success?)
      ensures openResult.Success? && r.Failure? ==> r.error == UnmarshalFailed
      ensures r.Success? ==> && fresh(r.value) && r.value.Valid() && r.value.codec == codec
                             && r.value.log == openResult.value && !r.value.writeLocked
                             && Replay(codec.decode, openResult.value) == Success(r.value.data)
      ensures r.Success? && Sound(codec) && Clean(openResult.value) ==> r.value.Durable()
    {
      if openResult.Failure? {
        return Failure(OpenFailed(openResult.error));
      }
      var content := openResult.value;
      var file := new HistoryFile.Init(codec, maxEntries, content);
      var eof := false;
      var pos := 0;
      ghost var read: seq<seq<byte>> := [];
      while !eof
        invariant 0 <= pos <= |content|
        invariant fresh(file) && file.Valid() && file.codec == codec && file.log == content && !file.writeLocked
        invariant LinesFrom(content, 0) == read + LinesFrom(content, pos)
        invariant ReplayLines(codec.decode, read) == Success(file.data)
        invariant eof ==> pos == |content|
        decreases |content| - pos, !eof
      {
        var end := LineEnd(content, pos);
        var line := content[pos..end];             // line, err = bufferedReader.ReadBytes('\n')
        assert |line| == end - pos && (|line| > 0 ==> line[|line| - 1] == content[end - 1]);
        eof := |line| == 0 || line[|line| - 1] != Newline;
        assert eof ==> end == |content|;
        if |line| > 0 {
          LinesStep(content, pos, read);
          ghost var next := read + [line];
          assert LinesFrom(content, 0) == next + LinesFrom(content, end);
          pos := end;
          match codec.decode(line[..|line| - 1]) {
            case None =>
              ReplayStops(codec.decode, read, line, LinesFrom(content, pos));
              return Failure(UnmarshalFailed);
            case Some(item) =>
              ReplayExtends(codec.decode, read, line, file.data, item);
              file.AddItem(item);
              read := next;
          }
        }
      }
      assert LinesFrom(content, 0) == read;
      return Success(file);
    }

    /**
     * addItem (history.go:199-251), with an id already present always
     * handled as a replacement of that node's value.
     */
    method AddItem(item: Item)
      requires Valid()
      modifies this
      ensures Valid() && data == Add(old(data), item) && log == old(log) && writeLocked == old(writeLocked)
    {
      AddKeepsWellFormed(data, item);
      ghost var before := data;
      if item.group !in data {
        data := data[item.group := EmptyContainer];
      }
      var container := data[item.group];
      assert container == (if item.group in before then before[item.group] else EmptyContainer);
      var id := ItemId(item);
      var list;
      if id !in container.byId {
        list := LinkNode(container.list, item);
      } else {
        list := ReplaceId(container.list, id, item);
      }
      assert Container(container.byId[id := item], list) == AddToContainer(container, item);
      data := data[item.group := Container(container.byId[id := item], list)];
      if item.group !in before {
        UpdateTwice(before, item.group, EmptyContainer, AddToContainer(container, item));
      }
    }

    /**
     * One pass of bgWriter (history.go:151-189) as written, for request
     * `req`: the write lock is taken, and since the collection loop never
     * runs (AsWrittenTakesOneRequest) the batch is `req` alone. It is
     * serialised, copied to the file and only then indexed, and the lock is
     * released. A serialisation error acks the request with the error and
     * returns without releasing the lock (history.go:157-158), so the next
     * pass and every reader wait for good. A failed copy releases the lock
     * and panics before the index is touched (the answer CopyPanicked; the
     * bytes io.Copy may already have written are not modelled).
     */
    method Serve(req: Item, copyOk: bool) returns (ack: Ack)
      requires Valid()
      modifies this
      ensures Valid()
      ensures old(writeLocked) ==> ack == Blocked && writeLocked && log == old(log) && data == old(data)
      ensures !old(writeLocked) ==>
                ack == (if codec.encode(req).None? then SerialiseFailed else if copyOk then Written else CopyPanicked)
      ensures ack == Written ==> log == old(log) + EncodeAll(codec, [req]) && data == Add(old(data), req) && !writeLocked
      ensures ack == SerialiseFailed ==> log == old(log) && data == old(data) && writeLocked
      ensures ack == CopyPanicked ==> log == old(log) && data == old(data) && !writeLocked
      ensures old(Durable()) ==> Durable()
    {
      if writeLocked {
        return Blocked;                       // file.rwMux.Lock() never returns
      }
      writeLocked := true;
      var first := WriteTo(codec, req);
      if first.None? {
        return SerialiseFailed;               // sendError, and the lock stays held
      }
      if !copyOk {
        writeLocked := false;
        return CopyPanicked;
      }
      ghost var oldLog := log;
      ghost var oldData := data;
      ghost var wasDurable := Durable();
      assert EncodeAll(codec, [req]) == first.value;
      log := log + first.value;
      AddItem(req);
      assert AddAll(oldData, [req]) == Add(oldData, req);
      if wasDurable {
        WriteKeepsReplay(codec, oldLog, oldData, [req]);
      }
      writeLocked := false;
      return Written;
    }

    /**
     * One pass of bgWriter for request `req` with `queued` waiting behind
     * it, as evidently intended: the queued requests are gathered while
     * they serialise (Collect), the batch is copied to the file and only
     * then indexed, and the lock is released on every path. A serialisation
     * error acks the batch with the error and changes nothing; a failed
     * copy panics before the index is touched.
     */
    method ServeBatch(req: Item, queued: seq<Item>, copyOk: bool) returns (records: seq<Item>, ack: Ack)
      requires Valid()
      modifies this
      ensures Valid() && writeLocked == old(writeLocked)
      ensures old(writeLocked) ==> ack == Blocked && records == [] && log == old(log) && data == old(data)
      ensures !old(writeLocked) ==> records == Batch(codec, req, queued)
      ensures !old(writeLocked) ==>
                ack == (if !AllEncodable(codec, records) then SerialiseFailed else if copyOk then Written else CopyPanicked)
      ensures ack == Written ==> log == old(log) + EncodeAll(codec, records) && data == AddAll(old(data), records)
      ensures ack != Written ==> log == old(log) && data == old(data)
      ensures old(Durable()) ==> Durable()
    {
      if writeLocked {
        return [], Blocked;
      }
      var buffer;
      records, buffer := Collect(codec, req, queued);
      if buffer.None? {
        return records, SerialiseFailed;
      }
      if !copyOk {
        return records, CopyPanicked;
      }
      ghost var oldLog := log;
      ghost var oldData := data;
      ghost var wasDurable := Durable();
      log := log + buffer.value;
      var j := 0;
      assert records[..0] == [];
      while j < |records|
        invariant 0 <= j <= |records|
        invariant Valid() && log == oldLog + buffer.value && !writeLocked
        invariant data == AddAll(oldData, records[..j])
      {
        assert records[..j + 1][..j] == records[..j];
        AddItem(records[j]);
        j := j + 1;
      }
      assert records[..|records|] == records;
      if wasDurable {
        WriteKeepsReplay(codec, oldLog, oldData, records);
      }
      ack := Written;
    }

    /**
     * GetGroupItems (history.go:276-286): a copy of the group's chain, head
     * to tail. For a group with no container the Go code dereferences a nil
     * pointer and panics; that is None here.
     */
    method GetGroupItems(group: string) returns (r: Read<Option<seq<Item>>>)
      ensures writeLocked ==> r == Waiting
      ensures !writeLocked && group in data ==> r == Got(Some(data[group].list))
      ensures !writeLocked && group !in data ==> r == Got(None)
    {
      if writeLocked {
        return Waiting;
      }
      if group !in data {
        return Got(None);
      }
      var container := data[group];
      var list: seq<Item> := [];
      var i := 0;
      while i < |container.list|
        invariant 0 <= i <= |container.list| && list == container.list[..i]
      {
        list := list + [container.list[i]];
        i := i + 1;
      }
      assert container.list[..i] == container.list;
      return Got(Some(list));
    }

    /** GetGroups (history.go:262-274): every group once, in map order. */
    method GetGroups() returns (r: Read<seq<string>>)
      ensures writeLocked <==> r == Waiting
      ensures r.Got? ==> |r.value| == |data|
      ensures r.Got? ==> forall g :: g in r.value <==> g in data
      ensures r.Got? ==> forall i, j | 0 <= i < j < |r.value| :: r.value[i] != r.value[j]
    {
      if writeLocked {
        return Waiting;
      }
      var keys := [];
      var rest := data.Keys;
      while rest != {}
        invariant rest <= data.Keys
        invariant forall g :: g in keys <==> g in data && g !in rest
        invariant forall i, j | 0 <= i < j < |keys| :: keys[i] != keys[j]
        invariant |keys| + |rest| == |data|
        decreases rest
      {
        var g :| g in rest;
        keys := keys + [g];
        rest := rest - {g};
      }
      return Got(keys);
    }
  }

  /**
   * The walk of history.go:221-247 that links a new node: `curr` is
   * list[i], and the node goes in front of the first `curr` whose CreatedAt
   * is not after the item's, or after the tail.
   */
  method LinkNode(list: seq<Item>, item: Item) returns (r: seq<Item>)
    ensures r == InsertAt(list, InsertPos(list, item.createdAt), item)
  {
    if |list| == 0 {
      return [item];
    }
    var i := 0;
    while i < |list|
      invariant 0 <= i <= |list| && i <= InsertPos(list, item.createdAt)
    {
      if !(item.createdAt < list[i].createdAt) {
        return list[..i] + [item] + list[i..];
      }
      i := i + 1;
    }
    return list + [item];
  }

  lemma LinesStep(content: seq<byte>, pos: nat, read: seq<seq<byte>>)
    requires pos < |content|
    requires LinesFrom(content, 0) == read + LinesFrom(content, pos)
    ensures LinesFrom(content, 0) == (read + [content[pos..LineEnd(content, pos)]]) + LinesFrom(content, LineEnd(content, pos))
  {
  }

  lemma ReplayExtends(decode: seq<byte> -> Option<Item>, read: seq<seq<byte>>, line: seq<byte>, index: Index, item: Item)
    requires ReplayLines(decode, read) == Success(index)
    requires |line| > 0 && decode(line[..|line| - 1]) == Some(item)
    ensures ReplayLines(decode, read + [line]) == Success(Add(index, item))
  {
    assert (read + [line])[..|read|] == read;
  }

  lemma ReplayStops(decode: seq<byte> -> Option<Item>, read: seq<seq<byte>>, line: seq<byte>, rest: seq<seq<byte>>)
    requires |line| > 0 && decode(line[..|line| - 1]).None?
    ensures ReplayLines(decode, (read + [line]) + rest).Failure?
  {
    BadLineAbortsReplay(decode, (read + [line]) + rest, |read|);
  }

  /**
   * The serialising half of one pass of bgWriter (history.go:150-172), with
   * the collection loop as evidently intended: `writeTo` of the first
   * request, then of each request still queued, stopping at the first error
   * or when nothing more is queued. None is a serialisation error.
   */
  method Collect(codec: Codec, req: Item, queued: seq<Item>) returns (records: seq<Item>, buffer: Option<seq<byte>>)
    ensures records == Batch(codec, req, queued)
    ensures buffer.Some? <==> AllEncodable(codec, records)
    ensures buffer.Some? ==> buffer.value == EncodeAll(codec, records)
  {
    records := [req];
    var first := WriteTo(codec, req);
    if first.None? {
      return records, None;
    }
    var bytes := first.value;
    var collect := true;
    var failed := false;
    var i := 0;
    assert records[..1] == [req];
    while collect && !failed
      invariant 0 <= i <= |queued|
      invariant records == [req] + queued[..i]
      invariant !failed ==> FirstUnencodable(codec, queued) >= i
      invariant !failed ==> AllEncodable(codec, records) && bytes == EncodeAll(codec, records)
      invariant failed ==> 0 < i && FirstUnencodable(codec, queued) == i - 1
      invariant !collect ==> i == |queued|
      decreases |queued| - i, collect
    {
      if i < |queued| {
        assert queued[..i + 1] == queued[..i] + [queued[i]];
        var next := records + [queued[i]];
        assert next[..|next| - 1] == records;
        records := next;
        match WriteTo(codec, queued[i]) {
          case None =>
            failed := true;
            FirstUnencodableAt(codec, queued, i);
          case Some(b) =>
            bytes := bytes + b;
            assert queued[..i + 1][i] == queued[i];
        }
        i := i + 1;
      } else {
        collect := false;
      }
    }
    if failed {
      assert records[i] == queued[i - 1];
      return records, None;
    }
    assert queued[..|queued|] == queued;
    return records, Some(bytes);
  }

  lemma {:induction false} FirstUnencodableAt(codec: Codec, items: seq<Item>, i: nat)
    requires i < |items| && AllEncodable(codec, items[..i]) && codec.encode(items[i]).None?
    ensures FirstUnencodable(codec, items) == i
  {
    if i > 0 {
      assert items[0] == items[..i][0];
      assert items[1..][..i - 1] == items[..i][1..];
      FirstUnencodableAt(codec, items[1..], i - 1);
    }
  }

}
