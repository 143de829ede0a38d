/** The two watermarks of ordered publication: the shared Redis register and each task's bounded delivery ledger. */
module OrderedDelivery {
  import opened Wrappers

  const MAX_ORDERED_DELIVERY_REVISIONS := 10000

  /** A JavaScript Map: its entries, and their keys in first-insertion order. */
  datatype Ledger = Ledger(order: seq<string>, marks: map<string, int>)

  const EMPTY_LEDGER := Ledger([], map[])

  ghost predicate WellOrdered(l: Ledger) {
    (forall i | 0 <= i < |l.order| :: l.order[i] in l.marks) &&
    (forall k | k in l.marks :: k in l.order) && |l.order| == |l.marks| &&
    forall i, j | 0 <= i < j < |l.order| :: l.order[i] != l.order[j]
  }

  predicate IsNewer(marks: map<string, int>, key: string, rev: int) {
    key in marks ==> rev > marks[key]
  }

  /** The entry that goes when one more key would exceed the limit; the empty key is falsy and stays. */
  function Evicted(l: Ledger, key: string): Option<string> {
    var order := if key in l.marks then l.order else l.order + [key];
    if |order| > MAX_ORDERED_DELIVERY_REVISIONS && order[0] != "" then Some(order[0]) else None
  }

  function Recorded(l: Ledger, key: string, rev: int): Ledger {
    if !IsNewer(l.marks, key, rev) then l
    else
      var order := if key in l.marks then l.order else l.order + [key];
      var marks := l.marks[key := rev];
      if Evicted(l, key).Some? then Ledger(order[1..], marks - {order[0]}) else Ledger(order, marks)
  }

  lemma SettingKeepsOrder(l: Ledger, key: string, rev: int)
    requires WellOrdered(l)
    ensures WellOrdered(Ledger(if key in l.marks then l.order else l.order + [key], l.marks[key := rev]))
  {
    assert l.marks[key := rev].Keys == l.marks.Keys + {key};
  }

  lemma DroppingOldestKeepsOrder(l: Ledger)
    requires WellOrdered(l) && l.order != []
    ensures WellOrdered(Ledger(l.order[1..], l.marks - {l.order[0]}))
  {
    var rest := l.order[1..];
    assert (l.marks - {l.order[0]}).Keys == l.marks.Keys - {l.order[0]};
    forall k | k in l.marks - {l.order[0]} ensures k in rest {
      var i :| 0 <= i < |l.order| && l.order[i] == k;
      assert rest[i - 1] == k;
    }
  }

  lemma RecordingKeepsOrder(l: Ledger, key: string, rev: int)
    requires WellOrdered(l)
    ensures WellOrdered(Recorded(l, key, rev))
  {
    SettingKeepsOrder(l, key, rev);
    if IsNewer(l.marks, key, rev) && Evicted(l, key).Some? {
      DroppingOldestKeepsOrder(Ledger(if key in l.marks then l.order else l.order + [key], l.marks[key := rev]));
    }
  }

  /** A ledger within its limit passes it exactly when a new key arrives at a full ledger whose oldest key is empty. */
  lemma RecordingPassesLimitIff(l: Ledger, key: string, rev: int)
    requires WellOrdered(l) && |l.order| <= MAX_ORDERED_DELIVERY_REVISIONS
    ensures |Recorded(l, key, rev).order| > MAX_ORDERED_DELIVERY_REVISIONS <==>
            key !in l.marks && |l.order| == MAX_ORDERED_DELIVERY_REVISIONS && l.order[0] == ""
  {
    hide WellOrdered;
  }

  /** What publishers' keys keep: a ledger without the empty key stays so, and within its limit. */
  ghost predicate Limited(l: Ledger) {
    WellOrdered(l) && "" !in l.marks && |l.order| <= MAX_ORDERED_DELIVERY_REVISIONS &&
    forall k | k in l.marks :: l.marks[k] >= 0
  }

  lemma RecordingKeepsLimit(l: Ledger, key: string, rev: nat)
    requires Limited(l) && key != ""
    ensures Limited(Recorded(l, key, rev))
  {
    RecordingKeepsOrder(l, key, rev);
    RecordingPassesLimitIff(l, key, rev);
    assert l.order != [] ==> l.order[0] in l.marks;
    RecordedMarks(l, key, rev);
    hide WellOrdered, Evicted, Recorded;
  }

  lemma RecordedMarks(l: Ledger, key: string, rev: int)
    ensures forall k | k in Recorded(l, key, rev).marks ::
              if k in l.marks && k != key then Recorded(l, key, rev).marks[k] == l.marks[k]
              else k == key && Recorded(l, key, rev).marks[k] == if IsNewer(l.marks, key, rev) then rev else l.marks[key]
  {}

  /** A revision that is not newer changes nothing. A newer one is recorded, a known key keeping its place and a new one
      going last; if that makes more than 10 000, exactly the key inserted first goes. */
  lemma RecordingInFields(l: Ledger, key: string, rev: int)
    requires Limited(l) && key != ""
    ensures var after := Recorded(l, key, rev);
            if key in l.marks && rev <= l.marks[key] then after == l
            else if key in l.marks then after == Ledger(l.order, l.marks[key := rev])
            else if |l.order| < 10_000 then after == Ledger(l.order + [key], l.marks[key := rev])
            else after == Ledger(l.order[1..] + [key], (l.marks - {l.order[0]})[key := rev])
  {
    if key !in l.marks && |l.order| == 10_000 {
      assert l.order[0] in l.marks && l.order[0] != key && l.order[0] != "";
      assert (l.order + [key])[1..] == l.order[1..] + [key];
      assert l.marks[key := rev] - {l.order[0]} == (l.marks - {l.order[0]})[key := rev];
    }
    hide WellOrdered;
  }

  // ---- The keys of the two publishers ----

  const STATUS_PREFIX := "classpilot-latest-status:"

  /** Command updates wait for Redis to accept. */
  function CommandKey(schoolId: string, commandId: string): string {
    schoolId + ":" + commandId
  }

  /** Device status updates are delivered locally even when publication fails. */
  function StatusKey(binding: string, audience: string): string {
    STATUS_PREFIX + binding + ":" + audience
  }

  predicate IsStatusKey(key: string) {
    STATUS_PREFIX <= key
  }

  /** Both kinds of key are non-empty, and they overlap only for a school id that itself begins like a status key. */
  lemma KeysOfPublishers(schoolId: string, commandId: string, binding: string, audience: string)
    ensures CommandKey(schoolId, commandId) != "" && StatusKey(binding, audience) != ""
    ensures IsStatusKey(StatusKey(binding, audience))
    ensures IsStatusKey(CommandKey(schoolId, commandId)) <==>
            schoolId + ":" == STATUS_PREFIX || STATUS_PREFIX <= schoolId
  {
    var key, n := CommandKey(schoolId, commandId), |STATUS_PREFIX|;
    assert schoolId + ":" <= key;
    if |schoolId| >= n {
      assert key[..n] == schoolId[..n];
    } else if IsStatusKey(key) {
      assert key[|schoolId|] == ':' && STATUS_PREFIX[|schoolId|] == ':';
      assert |schoolId| == n - 1;
      assert key[..n] == schoolId + ":";
    }
  }

  /** orderedDeliveryRevisions, one per task. */
  class DeliveryLedger {
    var order: seq<string>
    var marks: map<string, int>

    function View(): Ledger
      reads this
    {
      Ledger(order, marks)
    }

    constructor ()
      ensures View() == EMPTY_LEDGER
    {
      order, marks := [], map[];
    }

    /** `revision` is None when BigInt rejects the text. */
    method RecordOrderedDelivery(key: string, revision: Option<int>) returns (advanced: bool)
      requires WellOrdered(View())
      modifies this
      ensures advanced <==> revision.Some? && IsNewer(old(marks), key, revision.value)
      ensures View() == if revision.Some? then Recorded(old(View()), key, revision.value) else old(View())
    {
      if revision.None? { return false; }
      var next := revision.value;
      if key in marks && next <= marks[key] { return false; }
      if key !in marks { order := order + [key]; }
      marks := marks[key := next];
      if |order| > MAX_ORDERED_DELIVERY_REVISIONS {
        var oldest := order[0];
        if oldest != "" {
          order, marks := order[1..], marks - {oldest};
        }
      }
      return true;
    }
  }

  /** What ORDERED_PUBLISH_SCRIPT leaves in the register: a newer revision is reserved, whoever listens. */
  function Reserved(register: map<string, int>, key: string, rev: int): map<string, int> {
    if IsNewer(register, key, rev) then register[key := rev] else register
  }

  /** The Redis side of the script: the watermark register and what was published, in order. */
  class OrderedRegister {
    var register: map<string, int>
    var published: seq<(string, int)>

    constructor ()
      ensures register == map[] && published == []
    {
      register, published := map[], [];
    }

    /** Compare, reserve and publish in one atomic script; -1 is the stale answer. */
    method Eval(key: string, rev: nat, subscribers: nat) returns (reply: int)
      modifies this
      ensures reply == if IsNewer(old(register), key, rev) then subscribers as int else -1
      ensures register == Reserved(old(register), key, rev)
      ensures published == if reply >= 0 then old(published) + [(key, rev)] else old(published)
    {
      if key in register && register[key] >= rev { return -1; }
      register := register[key := rev];
      published := published + [(key, rev)];
      return subscribers;
    }
  }
}
