/** The recent-models list of internal/config/store.go, a bounded most-recent-first list
    that each step sees only in its truncated form. */
module RecentModels {
  import opened Common

  /** `extra` stands for the fields of SelectedModel that the list does not record. */
  datatype SelectedModel = SelectedModel(provider: string, model: string, extra: string)

  const MAX_RECENT_MODELS := 5

  predicate Eq(a: SelectedModel, b: SelectedModel) { a.provider == b.provider && a.model == b.model }

  predicate Valid(m: SelectedModel) { m.provider != "" && m.model != "" }

  predicate EqAll(a: seq<SelectedModel>, b: seq<SelectedModel>) {
    |a| == |b| && forall i | 0 <= i < |a| :: Eq(a[i], b[i])
  }

  /** slices.DeleteFunc with the comparison of nextRecentModels. */
  function Without(list: seq<SelectedModel>, m: SelectedModel): seq<SelectedModel> {
    if list == [] then []
    else if Eq(list[0], m) then Without(list[1..], m)
    else [list[0]] + Without(list[1..], m)
  }

  function Take<T>(n: nat, list: seq<T>): seq<T> { if |list| <= n then list else list[..n] }

  /** nextRecentModels: the list and whether it changed. */
  function NextRecentModels(current: seq<SelectedModel>, m: SelectedModel): (seq<SelectedModel>, bool) {
    if !Valid(m) then ([], false)
    else
      var updated := Take(MAX_RECENT_MODELS, [SelectedModel(m.provider, m.model, "")] + Without(current, m));
      if EqAll(current, updated) then (current, false) else (updated, true)
  }

  /** The caller publishes the list only when it changed. */
  function Record(current: seq<SelectedModel>, m: SelectedModel): seq<SelectedModel> {
    var (updated, changed) := NextRecentModels(current, m);
    if changed then updated else current
  }

  function RecordAll(current: seq<SelectedModel>, history: seq<SelectedModel>): seq<SelectedModel>
    decreases history
  {
    if history == [] then current else RecordAll(Record(current, history[0]), history[1..])
  }

  // --------------------------------------------------------------- the history specification

  type Key = (string, string)

  function KeyOf(m: SelectedModel): Key { (m.provider, m.model) }

  function Keys(list: seq<SelectedModel>): seq<Key> { seq(|list|, i requires 0 <= i < |list| => KeyOf(list[i])) }

  /** The selections that name a provider and a model, the latest first, before those that
      the list started with. */
  function LatestFirst(history: seq<SelectedModel>, start: seq<Key>): seq<Key> {
    if history == [] then start
    else LatestFirst(history[1..], if Valid(history[0]) then [KeyOf(history[0])] + start else start)
  }

  function Remove(keys: seq<Key>, k: Key): seq<Key> {
    if keys == [] then [] else if keys[0] == k then Remove(keys[1..], k) else [keys[0]] + Remove(keys[1..], k)
  }

  /** The first occurrence of every key. */
  function Distinct(keys: seq<Key>): seq<Key> {
    if keys == [] then [] else [keys[0]] + Remove(Distinct(keys[1..]), keys[0])
  }

  predicate NoDuplicates(keys: seq<Key>) {
    forall i, j | 0 <= i < j < |keys| :: keys[i] != keys[j]
  }

  /** One selection, whatever the list: an incomplete one changes nothing; a complete one comes
      first, and the entries of other models follow in their order, up to five entries in all. */
  lemma OneSelection(list: seq<SelectedModel>, m: SelectedModel)
    ensures m.provider == "" || m.model == "" ==> Record(list, m) == list
    ensures m.provider != "" && m.model != "" ==>
      var others := Filter(list, (x: SelectedModel) => x.provider != m.provider || x.model != m.model);
      var full := [m] + others;
      |Record(list, m)| == (if |full| > 5 then 5 else |full|)
      && forall i | 0 <= i < |Record(list, m)| ::
           Record(list, m)[i].provider == full[i].provider && Record(list, m)[i].model == full[i].model
  {
    WithoutIsFilter(list, m);
  }

  lemma {:induction false} WithoutIsFilter(list: seq<SelectedModel>, m: SelectedModel)
    ensures Without(list, m) == Filter(list, (x: SelectedModel) => x.provider != m.provider || x.model != m.model)
  {
    if list == [] {
    } else {
      WithoutIsFilter(list[1..], m);
    }
  }

  // ------------------------------------------------------------------------------ the proof

  lemma ConsNoDuplicates(k: Key, keys: seq<Key>)
    ensures k !in keys && NoDuplicates(keys) ==> NoDuplicates([k] + keys)
  {
  }

  lemma {:induction false} RemovePlain(keys: seq<Key>, k: Key)
    ensures forall x :: x in Remove(keys, k) <==> x in keys && x != k
    ensures NoDuplicates(keys) ==> NoDuplicates(Remove(keys, k))
    ensures k !in keys ==> Remove(keys, k) == keys
  {
    if keys == [] {
    } else {
      RemovePlain(keys[1..], k);
      if NoDuplicates(keys) {
        assert forall x | x in keys[1..] :: x != keys[0];
        assert NoDuplicates(keys[1..]);
        ConsNoDuplicates(keys[0], Remove(keys[1..], k));
      }
    }
  }

  lemma {:induction false} DistinctHasNoDuplicates(keys: seq<Key>)
    ensures NoDuplicates(Distinct(keys))
  {
    if keys == [] {
    } else {
      DistinctHasNoDuplicates(keys[1..]);
      RemovePlain(Distinct(keys[1..]), keys[0]);
    }
  }

  lemma {:induction false} DistinctOfDistinct(keys: seq<Key>)
    requires NoDuplicates(keys)
    ensures Distinct(keys) == keys
  {
    if keys == [] {
    } else {
      DistinctOfDistinct(keys[1..]);
      RemovePlain(keys[1..], keys[0]);
    }
  }

  /** A key that is not among the first ones can be removed without touching those. */
  lemma {:induction false} RemoveBehind(keys: seq<Key>, k: Key, n: nat)
    requires k !in Take(n, keys)
    ensures Take(n, Remove(keys, k)) == Take(n, keys)
  {
    if |keys| <= n {
      RemovePlain(keys, k);
    } else if n > 0 {
      assert Take(n, keys) == [keys[0]] + Take(n - 1, keys[1..]);
      RemoveBehind(keys[1..], k, n - 1);
      TakeAfter(keys[0], Remove(keys[1..], k), keys[1..], n);
    }
  }

  /** Truncating before a removal loses nothing of what is kept afterwards. */
  lemma {:induction false} TruncationIsHarmless(keys: seq<Key>, k: Key, n: nat)
    requires NoDuplicates(Take(n + 1, keys))
    ensures Take(n, Remove(Take(n + 1, keys), k)) == Take(n, Remove(keys, k))
  {
    if |keys| <= n + 1 {
    } else {
      var head, tail := keys[0], keys[1..];
      var short := Take(n + 1, keys);
      assert short == [head] + tail[..n] && short[1..] == tail[..n];
      assert forall x | x in tail[..n] :: x != head;
      if head == k {
        RemoveBehind(tail, k, n);
        RemovePlain(tail[..n], k);
      } else if n > 0 {
        assert Take(n, tail) == tail[..n];
        assert NoDuplicates(tail[..n]) by { assert forall l | 0 <= l < n :: tail[..n][l] == short[l + 1]; }
        TruncationIsHarmless(tail, k, n - 1);
        TakeAfter(head, Remove(tail[..n], k), Remove(tail, k), n);
      }
    }
  }

  lemma TakeAfter(k: Key, a: seq<Key>, b: seq<Key>, n: nat)
    requires n > 0 && Take(n - 1, a) == Take(n - 1, b)
    ensures Take(n, [k] + a) == Take(n, [k] + b)
  {
  }

  lemma {:induction false} KeysWithout(list: seq<SelectedModel>, m: SelectedModel)
    ensures Keys(Without(list, m)) == Remove(Keys(list), KeyOf(m))
  {
    if list == [] {
    } else {
      KeysWithout(list[1..], m);
      assert Keys(list) == [KeyOf(list[0])] + Keys(list[1..]);
      if !Eq(list[0], m) {
        assert Keys(Without(list, m)) == [KeyOf(list[0])] + Keys(Without(list[1..], m));
      }
    }
  }

  /** One selection, on the keys alone. */
  lemma RecordKeys(current: seq<SelectedModel>, m: SelectedModel)
    ensures Keys(Record(current, m))
         == if Valid(m) then Take(MAX_RECENT_MODELS, [KeyOf(m)] + Remove(Keys(current), KeyOf(m))) else Keys(current)
  {
    if Valid(m) {
      var full := [SelectedModel(m.provider, m.model, "")] + Without(current, m);
      KeysWithout(current, m);
      assert Keys(full) == [KeyOf(m)] + Remove(Keys(current), KeyOf(m));
      assert Keys(Take(MAX_RECENT_MODELS, full)) == Take(MAX_RECENT_MODELS, Keys(full));
      if EqAll(current, Take(MAX_RECENT_MODELS, full)) {
        assert Keys(current) == Keys(Take(MAX_RECENT_MODELS, full));
      }
    }
  }

  /** Started from the five first distinct keys of some past, the list holds the five first
      distinct keys of the past extended by the history. */
  lemma {:induction false} ListFollowsHistory(current: seq<SelectedModel>, history: seq<SelectedModel>, past: seq<Key>)
    requires Keys(current) == Take(MAX_RECENT_MODELS, Distinct(past))
    ensures Keys(RecordAll(current, history)) == Take(MAX_RECENT_MODELS, Distinct(LatestFirst(history, past)))
    decreases history
  {
    if history == [] {
    } else {
      var m := history[0];
      RecordKeys(current, m);
      if Valid(m) {
        var k := KeyOf(m);
        DistinctHasNoDuplicates(past);
        assert NoDuplicates(Take(MAX_RECENT_MODELS, Distinct(past)));
        TruncationIsHarmless(Distinct(past), k, MAX_RECENT_MODELS - 1);
        assert ([k] + past)[1..] == past;
        assert Distinct([k] + past) == [k] + Remove(Distinct(past), k);
        TakeAfter(k, Remove(Distinct(past), k), Remove(Take(MAX_RECENT_MODELS, Distinct(past)), k), MAX_RECENT_MODELS);
        ListFollowsHistory(Record(current, m), history[1..], [k] + past);
      } else {
        ListFollowsHistory(Record(current, m), history[1..], past);
      }
    }
  }

  /** From an empty list, after any selections, the list is the five first distinct ones of
      the whole history, the latest first, and every entry carries the two key fields only. */
  lemma RecentModelsRefineHistory(history: seq<SelectedModel>)
    ensures Keys(RecordAll([], history)) == Take(5, Distinct(LatestFirst(history, [])))
    ensures forall m | m in RecordAll([], history) :: m.extra == ""
  {
    ListFollowsHistory([], history, []);
    EntriesAreBare([], history);
  }

  lemma {:induction false} WithoutKeeps(list: seq<SelectedModel>, m: SelectedModel)
    ensures forall x | x in Without(list, m) :: x in list
  {
    if list == [] {
    } else {
      WithoutKeeps(list[1..], m);
    }
  }

  lemma {:induction false} EntriesAreBare(current: seq<SelectedModel>, history: seq<SelectedModel>)
    requires forall m | m in current :: m.extra == ""
    ensures forall m | m in RecordAll(current, history) :: m.extra == ""
    decreases history
  {
    if history == [] {
    } else {
      WithoutKeeps(current, history[0]);
      EntriesAreBare(Record(current, history[0]), history[1..]);
    }
  }

  /** What the list is for: at any time the five first distinct selections. */
  ghost predicate FollowsHistory(start: seq<SelectedModel>, history: seq<SelectedModel>) {
    Keys(RecordAll(start, history)) == Take(MAX_RECENT_MODELS, Distinct(LatestFirst(history, Keys(start))))
  }

  /** From a list that a config file brought the same holds at any time, the time before the
      first selection included, exactly if that list is short enough and repeats nothing. */
  lemma FollowsFromCleanStart(start: seq<SelectedModel>)
    ensures (forall history :: FollowsHistory(start, history))
       <==> (NoDuplicates(Keys(start)) && |start| <= MAX_RECENT_MODELS)
  {
    if NoDuplicates(Keys(start)) && |start| <= MAX_RECENT_MODELS {
      DistinctOfDistinct(Keys(start));
      forall history ensures FollowsHistory(start, history) {
        ListFollowsHistory(start, history, Keys(start));
      }
    } else {
      DistinctHasNoDuplicates(Keys(start));
      assert RecordAll(start, []) == start;
      assert !FollowsHistory(start, []);
    }
  }

  // ------------------------------------------------------- what a selection makes of a start

  /** The keys that a selection keeps behind its own. */
  function KeptBehind(start: seq<SelectedModel>, m: SelectedModel): seq<Key> {
    Take(MAX_RECENT_MODELS - 1, Remove(Keys(start), KeyOf(m)))
  }

  lemma {:induction false} RemoveTwice(keys: seq<Key>, j: Key, k: Key)
    ensures Remove(Remove(keys, j), k) == Remove(Remove(keys, k), j)
  {
    if keys == [] {
    } else {
      RemoveTwice(keys[1..], j, k);
    }
  }

  lemma {:induction false} RemoveFromDistinct(keys: seq<Key>, k: Key)
    ensures Remove(Distinct(keys), k) == Distinct(Remove(keys, k))
  {
    if keys == [] {
    } else {
      var head, rest := keys[0], Distinct(keys[1..]);
      RemoveFromDistinct(keys[1..], k);
      if head == k {
        RemovePlain(rest, k);
        RemovePlain(Remove(rest, k), k);
      } else {
        RemoveTwice(rest, head, k);
        assert Remove(keys, k) == [head] + Remove(keys[1..], k);
      }
    }
  }

  lemma TailDiffers(head: Key, tail: seq<Key>)
    requires NoDuplicates([head] + tail)
    ensures head !in tail && NoDuplicates(tail)
  {
    forall i | 0 <= i < |tail| ensures tail[i] != head && ([head] + tail)[i + 1] == tail[i] {
      assert ([head] + tail)[0] != ([head] + tail)[i + 1];
    }
    forall i, j | 0 <= i < j < |tail| ensures tail[i] != tail[j] {
      assert ([head] + tail)[i + 1] != ([head] + tail)[j + 1];
    }
  }

  /** The first keys are the first distinct keys exactly if they do not repeat. */
  lemma {:induction false} FirstAreDistinct(keys: seq<Key>, n: nat)
    ensures Take(n, keys) == Take(n, Distinct(keys)) <==> NoDuplicates(Take(n, keys))
  {
    DistinctHasNoDuplicates(keys);
    assert NoDuplicates(Take(n, Distinct(keys)));
    if keys == [] || n == 0 || !NoDuplicates(Take(n, keys)) {
    } else {
      var head, tail := keys[0], keys[1..];
      assert Take(n, keys) == [head] + Take(n - 1, tail);
      TailDiffers(head, Take(n - 1, tail));
      FirstAreDistinct(tail, n - 1);
      RemoveBehind(Distinct(tail), head, n - 1);
      TakeAfter(head, Remove(Distinct(tail), head), tail, n);
    }
  }

  lemma AfterOne(start: seq<SelectedModel>, m: SelectedModel)
    requires Valid(m)
    ensures var k, rest := KeyOf(m), Remove(Keys(start), KeyOf(m));
      FollowsHistory(start, [m])
      <==> Take(MAX_RECENT_MODELS, [k] + rest) == Take(MAX_RECENT_MODELS, [k] + Distinct(rest))
  {
    var k, keys := KeyOf(m), Keys(start);
    hide Record, Keys, Remove;
    RecordKeys(start, m);
    assert RecordAll(start, [m]) == RecordAll(Record(start, m), []);
    assert LatestFirst([m], keys) == LatestFirst([], [k] + keys);
    assert ([k] + keys)[1..] == keys;
    RemoveFromDistinct(keys, k);
  }

  /** The first valid selection decides: after it the list follows the history if and only if
      the keys kept behind it do not repeat. */
  lemma FirstSelectionDecides(start: seq<SelectedModel>, m: SelectedModel)
    requires Valid(m)
    ensures FollowsHistory(start, [m]) <==> NoDuplicates(KeptBehind(start, m))
  {
    var k, keys := KeyOf(m), Keys(start);
    hide Record, Keys, Distinct, NoDuplicates, Remove, FollowsHistory;
    AfterOne(start, m);
    FirstAreDistinct(Remove(keys, k), MAX_RECENT_MODELS - 1);
    assert Take(MAX_RECENT_MODELS, [k] + Remove(keys, k)) == [k] + KeptBehind(start, m);
    assert Take(MAX_RECENT_MODELS, [k] + Distinct(Remove(keys, k)))
        == [k] + Take(MAX_RECENT_MODELS - 1, Distinct(Remove(keys, k)));
    assert ([k] + KeptBehind(start, m))[1..] == KeptBehind(start, m);
  }

  ghost predicate SomeValid(history: seq<SelectedModel>) { exists m :: m in history && Valid(m) }

  /** What the first valid selection decided stays so. */
  lemma {:induction false} RepairedForGood(start: seq<SelectedModel>, history: seq<SelectedModel>)
    requires SomeValid(history)
    requires forall m | Valid(m) :: NoDuplicates(KeptBehind(start, m))
    ensures FollowsHistory(start, history)
  {
    var m := history[0];
    if Valid(m) {
      FirstSelectionDecides(start, m);
      assert RecordAll(start, [m]) == RecordAll(Record(start, m), []);
      assert LatestFirst([m], Keys(start)) == LatestFirst([], [KeyOf(m)] + Keys(start));
      ListFollowsHistory(Record(start, m), history[1..], [KeyOf(m)] + Keys(start));
    } else {
      assert history == [m] + history[1..];
      RepairedForGood(start, history[1..]);
    }
  }

  /** For every start, of any length and with any repetitions: the list follows every history
      that has a valid selection if and only if no selection keeps a repetition behind it. */
  lemma FollowsOnceSelected(start: seq<SelectedModel>)
    ensures (forall history | SomeValid(history) :: FollowsHistory(start, history))
       <==> (forall m | Valid(m) :: NoDuplicates(KeptBehind(start, m)))
  {
    if forall m | Valid(m) :: NoDuplicates(KeptBehind(start, m)) {
      forall history | SomeValid(history) ensures FollowsHistory(start, history) {
        RepairedForGood(start, history);
      }
    } else {
      var m :| Valid(m) && !NoDuplicates(KeptBehind(start, m));
      FirstSelectionDecides(start, m);
      assert m in [m] && SomeValid([m]);
    }
  }

  /** In terms of the start itself: if its first five entries are valid, every history with a
      valid selection repairs it exactly if those five do not repeat. */
  lemma RepairedExactlyIfFirstFiveDiffer(start: seq<SelectedModel>)
    requires forall m | m in Take(MAX_RECENT_MODELS, start) :: Valid(m)
    ensures (forall history | SomeValid(history) :: FollowsHistory(start, history))
       <==> NoDuplicates(Take(MAX_RECENT_MODELS, Keys(start)))
  {
    FollowsOnceSelected(start);
    var keys := Keys(start);
    if NoDuplicates(Take(MAX_RECENT_MODELS, keys)) {
      forall m | Valid(m) ensures NoDuplicates(KeptBehind(start, m)) {
        TruncationIsHarmless(keys, KeyOf(m), MAX_RECENT_MODELS - 1);
        RemovePlain(Take(MAX_RECENT_MODELS, keys), KeyOf(m));
      }
    } else {
      var m := SelectionThatKeepsRepetition(start);
    }
  }

  /** A selection that keeps a repetition among the first five: a new key if the first four
      repeat, else one of these that the fifth does not repeat. */
  lemma SelectionThatKeepsRepetition(start: seq<SelectedModel>) returns (m: SelectedModel)
    requires forall m | m in Take(MAX_RECENT_MODELS, start) :: Valid(m)
    requires !NoDuplicates(Take(MAX_RECENT_MODELS, Keys(start)))
    ensures Valid(m) && !NoDuplicates(KeptBehind(start, m))
  {
    var keys := Keys(start);
    var i, j :| 0 <= i < j < |Take(MAX_RECENT_MODELS, keys)| && keys[i] == keys[j];
    if j < MAX_RECENT_MODELS - 1 {
      m := SelectedModel(LongerThanAll(keys), "m", "");
      NotAmong(keys, LongerThanAll(keys), "m");
      RemovePlain(keys, KeyOf(m));
      assert KeptBehind(start, m)[i] == KeptBehind(start, m)[j];
    } else if NoDuplicates(Take(MAX_RECENT_MODELS - 1, keys)) {
      var l := if i == 0 then 1 else 0;
      m := start[l];
      assert m in Take(MAX_RECENT_MODELS, start);
      FifthRepeats(keys, i, l);
    } else {
      var a, b :| 0 <= a < b < |Take(MAX_RECENT_MODELS - 1, keys)| && keys[a] == keys[b];
      m := SelectedModel(LongerThanAll(keys), "m", "");
      NotAmong(keys, LongerThanAll(keys), "m");
      RemovePlain(keys, KeyOf(m));
      assert KeptBehind(start, m)[a] == KeptBehind(start, m)[b];
    }
  }

  lemma FifthRepeats(keys: seq<Key>, i: nat, l: nat)
    requires |keys| >= 5 && i < 4 && keys[4] == keys[i] && NoDuplicates(Take(4, keys))
    requires l == if i == 0 then 1 else 0
    ensures !NoDuplicates(Take(4, Remove(keys, keys[l])))
  {
    hide Remove;
    var rest := keys[5..];
    assert forall a | 0 <= a < 4 :: Take(4, keys)[a] == keys[a];
    if l == 0 {
      var four := [keys[1], keys[2], keys[3], keys[4]];
      DropFirst(keys[0], four, rest);
      assert keys == [keys[0]] + (four + rest);
      assert four[i - 1] == four[3];
    } else {
      var three := [keys[2], keys[3], keys[4]];
      DropSecond(keys[0], keys[1], three, rest);
      assert keys == [keys[0]] + ([keys[1]] + (three + rest));
      assert ([keys[0]] + three)[0] == ([keys[0]] + three)[3];
    }
  }

  lemma DropFirst(k: Key, four: seq<Key>, rest: seq<Key>)
    requires |four| == 4 && k !in four
    ensures Take(4, Remove([k] + (four + rest), k)) == four
  {
    assert Take(4, four + rest) == four;
    assert [] + ([k] + (four + rest)) == [k] + (four + rest);
    RemoveAt([], k, four + rest, 4);
  }

  lemma DropSecond(a: Key, k: Key, three: seq<Key>, rest: seq<Key>)
    requires |three| == 3 && k !in three && k != a
    ensures Take(4, Remove([a] + ([k] + (three + rest)), k)) == [a] + three
  {
    assert Take(3, three + rest) == three;
    RemoveAt([a], k, three + rest, 4);
  }

  lemma RemoveAt(before: seq<Key>, k: Key, behind: seq<Key>, n: nat)
    requires |before| <= n && k !in before && k !in Take(n - |before|, behind)
    ensures Take(n, Remove(before + ([k] + behind), k)) == before + Take(n - |before|, behind)
  {
    hide Take;
    RemoveAppend(before, [k] + behind, k);
    RemovePlain(before, k);
    assert ([k] + behind)[1..] == behind;
    RemoveBehind(behind, k, n - |before|);
    TakeBehind(before, Remove(behind, k), n);
  }

  lemma {:induction false} RemoveAppend(a: seq<Key>, b: seq<Key>, k: Key)
    ensures Remove(a + b, k) == Remove(a, k) + Remove(b, k)
  {
    if a == [] {
      assert a + b == b;
    } else {
      assert (a + b)[1..] == a[1..] + b;
      RemoveAppend(a[1..], b, k);
    }
  }

  lemma TakeBehind(a: seq<Key>, b: seq<Key>, n: nat)
    requires |a| <= n
    ensures Take(n, a + b) == a + Take(n - |a|, b)
  {
  }

  /** A provider name that no key has. */
  function LongerThanAll(keys: seq<Key>): string {
    if keys == [] then "p" else keys[0].0 + LongerThanAll(keys[1..])
  }

  lemma {:induction false} NotAmong(keys: seq<Key>, provider: string, model: string)
    requires |provider| >= |LongerThanAll(keys)|
    ensures (provider, model) !in keys && provider != ""
  {
    if keys == [] {
    } else {
      OneMore(keys[1..]);
      NotAmong(keys[1..], provider, model);
    }
  }

  lemma {:induction false} OneMore(keys: seq<Key>)
    ensures |LongerThanAll(keys)| > 0
  {
    if keys == [] {
    } else {
      OneMore(keys[1..]);
    }
  }

  function Repeat(m: SelectedModel, n: nat): seq<SelectedModel> { if n == 0 then [] else [m] + Repeat(m, n - 1) }

  /** A start that stays wrong: however often another model is selected, the list keeps its
      repetition and never follows the history. */
  lemma RepetitionStays(a: SelectedModel, b: SelectedModel, n: nat)
    requires Valid(a) && Valid(b) && !Eq(a, b) && n > 0
    ensures Keys(RecordAll([a, a], Repeat(b, n))) == [KeyOf(b), KeyOf(a), KeyOf(a)]
    ensures !FollowsHistory([a, a], Repeat(b, n))
  {
    var k, l := KeyOf(a), KeyOf(b);
    FirstOther(a, b);
    assert Repeat(b, n)[0] == b && Repeat(b, n)[1..] == Repeat(b, n - 1);
    hide Record, Keys, Repeat, Distinct, LatestFirst;
    SelectedAgain(Record([a, a], b), b, n - 1, [k, k]);
    AtMostTwo(b, n, a);
  }

  lemma FirstOther(a: SelectedModel, b: SelectedModel)
    requires Valid(b) && !Eq(a, b)
    ensures Keys(Record([a, a], b)) == [KeyOf(b), KeyOf(a), KeyOf(a)] == [KeyOf(b)] + [KeyOf(a), KeyOf(a)]
  {
    RecordKeys([a, a], b);
    assert Keys([a, a]) == [KeyOf(a), KeyOf(a)];
    RemovePlain([KeyOf(a), KeyOf(a)], KeyOf(b));
  }

  lemma SelectedOnceMore(current: seq<SelectedModel>, b: SelectedModel, rest: seq<Key>)
    requires Valid(b) && |rest| < MAX_RECENT_MODELS && KeyOf(b) !in rest && Keys(current) == [KeyOf(b)] + rest
    ensures Keys(Record(current, b)) == Keys(current)
  {
    hide Record, Keys;
    RecordKeys(current, b);
    assert ([KeyOf(b)] + rest)[1..] == rest;
    RemovePlain(rest, KeyOf(b));
  }

  lemma {:induction false} SelectedAgain(current: seq<SelectedModel>, b: SelectedModel, n: nat, rest: seq<Key>)
    requires Valid(b) && |rest| < MAX_RECENT_MODELS && KeyOf(b) !in rest && Keys(current) == [KeyOf(b)] + rest
    ensures Keys(RecordAll(current, Repeat(b, n))) == Keys(current)
    decreases n
  {
    hide Record, Keys;
    if n == 0 {
    } else {
      SelectedOnceMore(current, b, rest);
      assert Repeat(b, n)[1..] == Repeat(b, n - 1);
      SelectedAgain(Record(current, b), b, n - 1, rest);
    }
  }

  /** Only two different keys were ever there. */
  lemma AtMostTwo(b: SelectedModel, n: nat, a: SelectedModel)
    ensures |Take(MAX_RECENT_MODELS, Distinct(LatestFirst(Repeat(b, n), Keys([a, a]))))| <= 2
  {
    var past := LatestFirst(Repeat(b, n), Keys([a, a]));
    assert Keys([a, a]) == [KeyOf(a), KeyOf(a)];
    OnlyThese(b, n, Keys([a, a]), {KeyOf(a), KeyOf(b)});
    DistinctHasNoDuplicates(past);
    DistinctIn(past);
    FewDistinct(Distinct(past), {KeyOf(a), KeyOf(b)});
  }

  lemma {:induction false} OnlyThese(b: SelectedModel, n: nat, past: seq<Key>, these: set<Key>)
    requires KeyOf(b) in these && forall k | k in past :: k in these
    ensures forall k | k in LatestFirst(Repeat(b, n), past) :: k in these
    decreases n
  {
    if n == 0 {
    } else {
      assert Repeat(b, n)[1..] == Repeat(b, n - 1);
      OnlyThese(b, n - 1, if Valid(b) then [KeyOf(b)] + past else past, these);
    }
  }

  lemma {:induction false} DistinctIn(keys: seq<Key>)
    ensures forall k | k in Distinct(keys) :: k in keys
  {
    if keys == [] {
    } else {
      DistinctIn(keys[1..]);
      RemovePlain(Distinct(keys[1..]), keys[0]);
    }
  }

  lemma {:induction false} FewDistinct(keys: seq<Key>, these: set<Key>)
    requires NoDuplicates(keys) && forall k | k in keys :: k in these
    ensures |keys| <= |these|
  {
    if keys == [] {
    } else {
      assert forall k | k in keys[1..] :: k != keys[0];
      FewDistinct(keys[1..], these - {keys[0]});
    }
  }
}
