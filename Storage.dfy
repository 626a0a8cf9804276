/**
 * IngredientStorage: a named store that files ingredients under a key derived
 * from their name. Each key holds a list of batches; a batch arriving with the
 * expiry day of one already filed is merged into it, any other batch is
 * appended. The store answers lookups, checks whether it can cover a list of
 * requirements, removes single batches and sweeps out everything expired.
 *
 * The map and its lists are values here: the source's in-place updates of a
 * HashMap of ArrayLists of Ingredient objects are modelled by replacing the
 * list stored under a key.
 */
module Storage {
  import opened Outcomes
  import opened Text
  import opened Units
  import opened Ingredients

  /** The ingredient map: key to the list of batches filed under it. */
  type Stock = map<string, seq<Ingredient>>

  /** What the storage throws: IllegalArgumentException for a null ingredient, NullPointerException for a missing list or entry, or a conversion's exception. */
  datatype Fault = NullIngredient | NullList | Conversion(error: ConvError)

  /** The list under `k`, or the empty list that computeIfAbsent would create. */
  function ListAt(stock: Stock, k: string): seq<Ingredient>
  {
    if k in stock then stock[k] else []
  }

  /** The position of the first batch that expires on `date`, if any (a stream's findFirst). */
  function FirstOn(entries: seq<Ingredient>, date: int): (r: Option<nat>)
    ensures r.Some? ==> r.value < |entries| && entries[r.value].expiry == date
    ensures r.Some? ==> forall j :: 0 <= j < r.value ==> entries[j].expiry != date
    ensures r.None? <==> forall j :: 0 <= j < |entries| ==> entries[j].expiry != date
  {
    if entries == [] then None
    else if entries[0].expiry == date then Some(0)
    else match FirstOn(entries[1..], date)
      case None => None
      case Some(j) => Some(j + 1)
  }

  /** The position of the first batch equal to `x`, if any (the search List.remove(Object) performs). */
  function IndexOf(entries: seq<Ingredient>, x: Ingredient): (r: Option<nat>)
    ensures r.Some? ==> r.value < |entries| && entries[r.value] == x
    ensures r.Some? ==> forall j :: 0 <= j < r.value ==> entries[j] != x
    ensures r.None? <==> x !in entries
  {
    if entries == [] then None
    else if entries[0] == x then Some(0)
    else match IndexOf(entries[1..], x)
      case None => None
      case Some(j) => Some(j + 1)
  }

  /** hasMatchingExpiryDate's test: a list is filed under `k` and a batch in it expires on `date`. */
  predicate HasDate(stock: Stock, k: string, date: int)
  {
    k in stock && FirstOn(stock[k], date).Some?
  }

  /** No two batches of one list share an expiry day. */
  predicate DistinctDates(entries: seq<Ingredient>)
  {
    forall a, b :: 0 <= a < b < |entries| ==> entries[a].expiry != entries[b].expiry
  }

  /** Every batch is filed under the key of its own name. */
  predicate Filed(stock: Stock, key: string -> string)
  {
    forall k, j :: k in stock && 0 <= j < |stock[k]| ==> key(stock[k][j].name) == k
  }

  /** The invariant the storage keeps: batches are filed by name and, per key, by distinct expiry days. */
  predicate WellFormed(stock: Stock, key: string -> string)
  {
    Filed(stock, key) && forall k :: k in stock ==> DistinctDates(stock[k])
  }

  /** addToList: appends `i` to the list under `k`, creating the list on first use. */
  function AppendTo(stock: Stock, k: string, i: Ingredient): (r: Stock)
    ensures r.Keys == stock.Keys + {k}
    ensures r[k] == ListAt(stock, k) + [i]
    ensures forall k' :: k' in stock && k' != k ==> r[k'] == stock[k']
  {
    stock[k := ListAt(stock, k) + [i]]
  }

  /**
   * mergeIngredient: looks the batch up under the LOWER-CASED name (not under
   * the storage's key), takes the first batch there with the same expiry day and
   * merges `i` into it. A missing list or a missing batch is dereferenced as
   * null, and a batch of the other unit family makes the merge throw.
   */
  function MergeInto(stock: Stock, i: Ingredient): (r: Result<Stock, Fault>)
    ensures r.Ok? ==> r.value.Keys == stock.Keys
    ensures r.Err? && r.error != NullList ==> r.error.Conversion?
    ensures ToLower(i.name) !in stock ==> r == Err(NullList)
  {
    var lk := ToLower(i.name);
    if lk !in stock then Err(NullList)
    else match FirstOn(stock[lk], i.expiry)
      case None => Err(NullList)
      case Some(j) =>
        match Merge(stock[lk][j], i)
        case Err(e) => Err(Conversion(e))
        case Ok(m) => Ok(stock[lk := stock[lk][j := m]])
  }

  /** addIngredient on a non-null ingredient: merge when its key already holds its expiry day, append otherwise. */
  function Add(stock: Stock, key: string -> string, i: Ingredient): Result<Stock, Fault>
  {
    if HasDate(stock, key(i.name), i.expiry) then MergeInto(stock, i)
    else Ok(AppendTo(stock, key(i.name), i))
  }

  /**
   * A batch with an expiry day not yet filed under its key is appended to that
   * key's list, the list being created if needed; no other key changes.
   */
  lemma AddAppends(stock: Stock, key: string -> string, i: Ingredient)
    requires forall j :: 0 <= j < |ListAt(stock, key(i.name))| ==> ListAt(stock, key(i.name))[j].expiry != i.expiry
    ensures Add(stock, key, i).Ok?
    ensures var s := Add(stock, key, i).value;
            && s.Keys == stock.Keys + {key(i.name)}
            && s[key(i.name)] == ListAt(stock, key(i.name)) + [i]
            && forall k :: k in stock && k != key(i.name) ==> s[k] == stock[k]
  {
    if key(i.name) in stock {
      var l := stock[key(i.name)];
      assert ListAt(stock, key(i.name)) == l;
      assert forall j :: 0 <= j < |l| ==> l[j].expiry != i.expiry;
      assert FirstOn(stock[key(i.name)], i.expiry).None?;
    }
  }

  /**
   * When lower-casing agrees with the storage's key, a batch whose expiry day is
   * filed under its key is merged into the first batch with that day: the list
   * keeps its length and only that batch changes. It fails only when the two
   * batches are of different unit families.
   */
  lemma AddMerges(stock: Stock, key: string -> string, i: Ingredient)
    requires ToLower(i.name) == key(i.name)
    requires HasDate(stock, key(i.name), i.expiry)
    ensures var k := key(i.name);
            var j := FirstOn(stock[k], i.expiry).value;
            && stock[k][j].expiry == i.expiry
            && (Add(stock, key, i).Ok? <==> Merge(stock[k][j], i).Ok?)
            && (Add(stock, key, i).Err? ==> Add(stock, key, i).error == Conversion(Merge(stock[k][j], i).error))
            && (Add(stock, key, i).Ok? ==>
                  var s := Add(stock, key, i).value;
                  && s.Keys == stock.Keys
                  && |s[k]| == |stock[k]|
                  && s[k][j] == Merge(stock[k][j], i).value
                  && (forall n :: 0 <= n < |s[k]| && n != j ==> s[k][n] == stock[k][n])
                  && forall k' :: k' in stock && k' != k ==> s[k'] == stock[k'])
  {
  }

  /**
   * The lookup that decides to merge and the lookup that performs it use
   * different keys: when the key of a batch holds its expiry day but nothing is
   * filed under its lower-cased name, adding it throws a NullPointerException.
   */
  lemma AddMisroutes(stock: Stock, key: string -> string, i: Ingredient)
    requires HasDate(stock, key(i.name), i.expiry) && ToLower(i.name) !in stock
    ensures Add(stock, key, i) == Err(NullList)
  {
  }

  /** Appending a batch whose day is new to its key keeps the store well formed. */
  lemma AppendPreservesWellFormed(stock: Stock, key: string -> string, i: Ingredient)
    requires WellFormed(stock, key)
    requires !HasDate(stock, key(i.name), i.expiry)
    ensures WellFormed(AppendTo(stock, key(i.name), i), key)
  {
    var k := key(i.name);
    var s: Stock := AppendTo(stock, k, i);
    var l := ListAt(stock, k);
    assert forall j :: 0 <= j < |l| ==> l[j].expiry != i.expiry;
    forall k', j | k' in s && 0 <= j < |s[k']|
      ensures key(s[k'][j].name) == k'
    {
      if k' == k && j < |l| {
        assert s[k'][j] == stock[k][j];
      }
    }
    assert DistinctDates(s[k]);
  }

  /** Merging changes one batch but neither its name nor its day, so the store stays well formed. */
  lemma MergePreservesWellFormed(stock: Stock, key: string -> string, i: Ingredient)
    requires WellFormed(stock, key)
    requires MergeInto(stock, i).Ok?
    ensures WellFormed(MergeInto(stock, i).value, key)
  {
    var lk := ToLower(i.name);
    var j := FirstOn(stock[lk], i.expiry).value;
    var m := Merge(stock[lk][j], i).value;
    var s: Stock := MergeInto(stock, i).value;
    assert s == stock[lk := stock[lk][j := m]];
    assert m.name == stock[lk][j].name && m.expiry == stock[lk][j].expiry;
    forall k', n | k' in s && 0 <= n < |s[k']|
      ensures key(s[k'][n].name) == k'
    {
      if k' == lk && n != j {
        assert s[k'][n] == stock[k'][n];
      }
    }
    assert DistinctDates(s[lk]) by {
      forall a, b | 0 <= a < b < |s[lk]| ensures s[lk][a].expiry != s[lk][b].expiry {
        assert s[lk][a].expiry == stock[lk][a].expiry && s[lk][b].expiry == stock[lk][b].expiry;
      }
    }
  }

  /** Adding keeps no two batches of one key on the same expiry day, and every batch filed by its name. */
  lemma AddPreservesWellFormed(stock: Stock, key: string -> string, i: Ingredient)
    requires WellFormed(stock, key)
    requires Add(stock, key, i).Ok?
    ensures WellFormed(Add(stock, key, i).value, key)
  {
    if HasDate(stock, key(i.name), i.expiry) {
      MergePreservesWellFormed(stock, key, i);
    } else {
      AppendPreservesWellFormed(stock, key, i);
    }
  }

  /** `j` is the first position of the list that holds `x`. */
  predicate FirstEqualAt(entries: seq<Ingredient>, x: Ingredient, j: int)
  {
    0 <= j < |entries| && entries[j] == x && forall i :: 0 <= i < j ==> entries[i] != x
  }

  /** List.remove(Object): the list without its first batch equal to `x`; the list itself when there is none. */
  function RemoveFirst(entries: seq<Ingredient>, x: Ingredient): (r: seq<Ingredient>)
    ensures x !in entries ==> r == entries
    ensures x in entries ==> |r| == |entries| - 1 && multiset(r) == multiset(entries) - multiset{x}
    ensures x in entries ==> exists j :: FirstEqualAt(entries, x, j) && r == entries[..j] + entries[j + 1..]
    ensures forall e :: e in r ==> e in entries
  {
    match IndexOf(entries, x)
    case None => entries
    case Some(j) =>
      assert entries == entries[..j] + [x] + entries[j + 1..];
      entries[..j] + entries[j + 1..]
  }

  /**
   * removeIngredient on a non-null ingredient: the list under its key loses its
   * first equal batch, a list left empty is dropped from the map, and the result
   * says whether a batch was removed. A key with no list throws.
   */
  function Remove(stock: Stock, key: string -> string, x: Ingredient): Result<(Stock, bool), Fault>
  {
    var k := key(x.name);
    if k !in stock then Err(NullList)
    else
      var rest := RemoveFirst(stock[k], x);
      Ok((if rest == [] then stock - {k} else stock[k := rest], x in stock[k]))
  }

  /**
   * Removal reports true exactly when the batch was filed; the key stays only
   * while its list is non-empty, and no other key changes.
   */
  lemma RemoveMeaning(stock: Stock, key: string -> string, x: Ingredient)
    ensures key(x.name) !in stock <==> Remove(stock, key, x).Err?
    ensures key(x.name) in stock ==>
              var (s, removed) := Remove(stock, key, x).value;
              var k := key(x.name);
              && (removed <==> x in stock[k])
              && (k in s <==> |stock[k]| > (if removed then 1 else 0))
              && (k in s ==> multiset(s[k]) == multiset(stock[k]) - multiset{x})
              && (k in s && !removed ==> s[k] == stock[k])
              && (k in s && removed ==>
                    exists j :: FirstEqualAt(stock[k], x, j) && s[k] == stock[k][..j] + stock[k][j + 1..])
              && (forall k' :: k' != k ==> (k' in s <==> k' in stock))
              && (forall k' :: k' in stock && k' != k ==> s[k'] == stock[k'])
  {
    if key(x.name) in stock {
      RemoveKeepsKey(stock, key, x);
      RemoveContents(stock, key, x);
      RemoveOthers(stock, key, x);
    }
  }

  /** The key stays exactly while its list has a batch left after the removal. */
  lemma RemoveKeepsKey(stock: Stock, key: string -> string, x: Ingredient)
    requires key(x.name) in stock
    ensures var (s, removed) := Remove(stock, key, x).value;
            && (removed <==> x in stock[key(x.name)])
            && (key(x.name) in s <==> |stock[key(x.name)]| > (if removed then 1 else 0))
  {
  }

  /** What is left under the key is the old list with its first equal batch cut out, in order. */
  lemma RemoveContents(stock: Stock, key: string -> string, x: Ingredient)
    requires key(x.name) in stock
    ensures var s := Remove(stock, key, x).value.0;
            var l := stock[key(x.name)];
            && (key(x.name) in s ==> multiset(s[key(x.name)]) == multiset(l) - multiset{x})
            && (key(x.name) in s && x !in l ==> s[key(x.name)] == l)
            && (key(x.name) in s && x in l ==>
                  exists j :: FirstEqualAt(l, x, j) && s[key(x.name)] == l[..j] + l[j + 1..])
  {
    var l := stock[key(x.name)];
    if x !in l {
      assert multiset(l) - multiset{x} == multiset(l);
    }
  }

  /** No other key is added, dropped or changed. */
  lemma RemoveOthers(stock: Stock, key: string -> string, x: Ingredient)
    requires key(x.name) in stock
    ensures var s := Remove(stock, key, x).value.0;
            && (forall k' :: k' != key(x.name) ==> (k' in s <==> k' in stock))
            && (forall k' :: k' in stock && k' != key(x.name) ==> s[k'] == stock[k'])
  {
  }

  /**
   * Adding a batch whose day is new to its key and removing it again gives back
   * the store, provided the key did not hold an empty list (which the removal
   * would drop).
   */
  lemma AddThenRemove(stock: Stock, key: string -> string, i: Ingredient)
    requires !HasDate(stock, key(i.name), i.expiry)
    requires key(i.name) in stock ==> stock[key(i.name)] != []
    ensures Add(stock, key, i).Ok?
    ensures Remove(Add(stock, key, i).value, key, i) == Ok((stock, true))
  {
    var k := key(i.name);
    assert Add(stock, key, i) == Ok(AppendTo(stock, k, i)) by {
      AddAppends(stock, key, i);
    }
    assert i !in ListAt(stock, k);
    RemoveAppended(stock, key, i);
  }

  /** Removing a batch that was just appended, and only there, gives back the store. */
  lemma RemoveAppended(stock: Stock, key: string -> string, i: Ingredient)
    requires i !in ListAt(stock, key(i.name))
    requires key(i.name) in stock ==> stock[key(i.name)] != []
    ensures Remove(AppendTo(stock, key(i.name), i), key, i) == Ok((stock, true))
  {
    var k := key(i.name);
    var l := ListAt(stock, k);
    var s := AppendTo(stock, k, i);
    assert RemoveFirst(s[k], i) == l by {
      RemoveLast(l, i);
    }
    assert i in s[k];
    assert Remove(s, key, i) == Ok((if l == [] then s - {k} else s[k := l], true));
    if l == [] {
      AppendToNewKey(stock, k, i);
    } else {
      AppendToOldKey(stock, k, i);
    }
  }

  /** Appending under a new key and dropping that key again gives back the store. */
  lemma AppendToNewKey(stock: Stock, k: string, i: Ingredient)
    requires k !in stock
    ensures AppendTo(stock, k, i) - {k} == stock
  {
    var s := AppendTo(stock, k, i);
    assert (s - {k}).Keys == stock.Keys;
  }

  /** Appending under a used key and putting the old list back gives back the store. */
  lemma AppendToOldKey(stock: Stock, k: string, i: Ingredient)
    requires k in stock
    ensures AppendTo(stock, k, i)[k := stock[k]] == stock
  {
  }

  /** Removing a batch that was only appended at the end gives back the list. */
  lemma RemoveLast(l: seq<Ingredient>, i: Ingredient)
    requires i !in l
    ensures RemoveFirst(l + [i], i) == l
  {
    var t := l + [i];
    assert forall j :: 0 <= j < |l| ==> t[j] == l[j];
    assert IndexOf(t, i) == Some(|l|);
    assert t[..|l|] == l;
  }

  /** Removal keeps the store well formed: each list only loses batches. */
  lemma RemovePreservesWellFormed(stock: Stock, key: string -> string, x: Ingredient)
    requires WellFormed(stock, key)
    requires Remove(stock, key, x).Ok?
    ensures WellFormed(Remove(stock, key, x).value.0, key)
  {
    var k := key(x.name);
    var s := Remove(stock, key, x).value.0;
    var rest := RemoveFirst(stock[k], x);
    RemoveFirstKeeps(stock[k], x);
    assert k in s ==> s[k] == rest;
    forall k', j | k' in s && 0 <= j < |s[k']|
      ensures key(s[k'][j].name) == k'
    {
      if k' == k {
        assert s[k'][j] in stock[k];
      } else {
        assert s[k'] == stock[k'];
      }
    }
  }

  /** Removing the first copy of `x` keeps the remaining batches in order, so their days stay distinct. */
  lemma RemoveFirstKeeps(l: seq<Ingredient>, x: Ingredient)
    requires DistinctDates(l)
    ensures DistinctDates(RemoveFirst(l, x))
  {
    var rest := RemoveFirst(l, x);
    if x in l {
      var j := IndexOf(l, x).value;
      assert rest == l[..j] + l[j + 1..];
      assert forall n :: 0 <= n < |rest| ==> rest[n] == if n < j then l[n] else l[n + 1];
    }
  }

  /** The batches that expire before `today` (LocalDate.isBefore on day numbers), in list order. */
  function Expired(entries: seq<Ingredient>, today: int): (r: seq<Ingredient>)
    ensures forall e :: e in r ==> e in entries && e.expiry < today
  {
    if entries == [] then []
    else (if entries[0].expiry < today then [entries[0]] else []) + Expired(entries[1..], today)
  }

  /** The batches that do not expire before `today`, in list order: what removeIf leaves. */
  function Keep(entries: seq<Ingredient>, today: int): (r: seq<Ingredient>)
    ensures forall e :: e in r ==> e in entries && e.expiry >= today
  {
    if entries == [] then []
    else (if entries[0].expiry < today then [] else [entries[0]]) + Keep(entries[1..], today)
  }

  /** removeIf splits a list: what it keeps and what it removes together make up the list. */
  lemma {:induction false} KeepExpiredSplit(entries: seq<Ingredient>, today: int)
    ensures multiset(Keep(entries, today)) + multiset(Expired(entries, today)) == multiset(entries)
  {
    if entries != [] {
      KeepExpiredSplit(entries[1..], today);
      assert entries == [entries[0]] + entries[1..];
    }
  }

  /** Filtering keeps days distinct: a kept list has no two batches on one day. */
  lemma {:induction false} KeepDistinct(entries: seq<Ingredient>, today: int)
    requires DistinctDates(entries)
    ensures DistinctDates(Keep(entries, today))
  {
    if entries != [] {
      var tail := entries[1..];
      assert DistinctDates(tail) by {
        forall a, b | 0 <= a < b < |tail| ensures tail[a].expiry != tail[b].expiry {
          assert tail[a] == entries[a + 1] && tail[b] == entries[b + 1];
        }
      }
      KeepDistinct(tail, today);
      var k := Keep(tail, today);
      forall e | e in k ensures e.expiry != entries[0].expiry {
        var n :| 0 <= n < |tail| && tail[n] == e;
        assert entries[n + 1] == e;
      }
    }
  }

  /** removeExpired on a non-empty map: every list filtered, emptied lists kept. */
  function Swept(stock: Stock, today: int): (r: Stock)
    ensures r.Keys == stock.Keys
    ensures forall k :: k in stock ==> r[k] == Keep(stock[k], today)
  {
    map k | k in stock :: Keep(stock[k], today)
  }

  /** The store part-way through the sweep: the keys in `done` filtered, the others as they were. */
  function SweptOn(stock: Stock, done: set<string>, today: int): (r: Stock)
    ensures r.Keys == stock.Keys
  {
    map k | k in stock :: if k in done then Keep(stock[k], today) else stock[k]
  }

  /** Sweeping one more key is one more map update. */
  lemma SweptOnStep(stock: Stock, done: set<string>, k: string, today: int)
    requires k in stock && k !in done
    ensures SweptOn(stock, done + {k}, today) == SweptOn(stock, done, today)[k := Keep(stock[k], today)]
    ensures SweptOn(stock, done, today)[k] == stock[k]
  {
  }

  /** Sweeping key k moves it from the pending keys to the swept ones and its expired batches to the removed ones. */
  lemma SweepStep(start: Stock, pending: set<string>, k: string, cur: Stock, removed: seq<Ingredient>, today: int)
    requires pending <= start.Keys && k in pending
    requires cur == SweptOn(start, start.Keys - pending, today)
    requires multiset(removed) + ExpiredOver(start, pending, today) == ExpiredOver(start, start.Keys, today)
    ensures k in cur
    ensures cur[k := Keep(cur[k], today)] == SweptOn(start, start.Keys - (pending - {k}), today)
    ensures multiset(removed + Expired(cur[k], today)) + ExpiredOver(start, pending - {k}, today)
            == ExpiredOver(start, start.Keys, today)
  {
    ExpiredOverSplit(start, pending, k, today);
    SweptOnStep(start, start.Keys - pending, k, today);
    assert start.Keys - pending + {k} == start.Keys - (pending - {k});
    assert cur[k] == start[k];
    assert multiset(removed + Expired(start[k], today)) == multiset(removed) + multiset(Expired(start[k], today));
  }

  /** Once every key is swept the store is the swept store. */
  lemma SweptOnAll(stock: Stock, today: int)
    ensures SweptOn(stock, stock.Keys, today) == Swept(stock, today)
  {
  }

  /** The sweep keeps the store well formed. */
  lemma SweptPreservesWellFormed(stock: Stock, key: string -> string, today: int)
    requires WellFormed(stock, key)
    ensures WellFormed(Swept(stock, today), key)
  {
    var s := Swept(stock, today);
    forall k | k in s ensures DistinctDates(s[k]) {
      KeepDistinct(stock[k], today);
    }
    forall k, j | k in s && 0 <= j < |s[k]| ensures key(s[k][j].name) == k {
      assert s[k][j] in stock[k];
    }
  }

  /** The expired batches under the keys `ks`, as a bag: which key comes first is the HashMap's business. */
  ghost function ExpiredOver(stock: Stock, ks: set<string>, today: int): multiset<Ingredient>
    requires ks <= stock.Keys
    decreases ks
  {
    if ks == {} then multiset{}
    else
      var k :| k in ks;
      multiset(Expired(stock[k], today)) + ExpiredOver(stock, ks - {k}, today)
  }

  /** Any key can be taken out of ExpiredOver first. */
  lemma {:induction false} ExpiredOverSplit(stock: Stock, ks: set<string>, k: string, today: int)
    requires ks <= stock.Keys && k in ks
    ensures ExpiredOver(stock, ks, today) == multiset(Expired(stock[k], today)) + ExpiredOver(stock, ks - {k}, today)
    decreases ks
  {
    var c :| c in ks && ExpiredOver(stock, ks, today) == multiset(Expired(stock[c], today)) + ExpiredOver(stock, ks - {c}, today);
    if c != k {
      ExpiredOverSplit(stock, ks - {c}, k, today);
      ExpiredOverSplit(stock, ks - {k}, c, today);
      assert ks - {c} - {k} == ks - {k} - {c};
    }
  }

  /** Every batch in the expired bag did expire before today. */
  lemma {:induction false} ExpiredOverExpired(stock: Stock, ks: set<string>, today: int)
    requires ks <= stock.Keys
    ensures forall e :: e in ExpiredOver(stock, ks, today) ==> e.expiry < today
    decreases ks
  {
    if ks != {} {
      var k :| k in ks;
      ExpiredOverSplit(stock, ks, k, today);
      ExpiredOverExpired(stock, ks - {k}, today);
    }
  }

  /** The sum of the amounts of a list, in list order. */
  function Total(entries: seq<Ingredient>): real
  {
    if entries == [] then 0.0 else Total(entries[..|entries| - 1]) + entries[|entries| - 1].stock.amount
  }

  /** The sum of the values of a list, in list order. */
  function ListValue(entries: seq<Ingredient>): real
  {
    if entries == [] then 0.0 else ListValue(entries[..|entries| - 1]) + entries[|entries| - 1].value
  }

  /** The summed values of the lists under the keys `ks`. */
  ghost function ValueOver(stock: Stock, ks: set<string>): real
    requires ks <= stock.Keys
    decreases ks
  {
    if ks == {} then 0.0
    else
      var k :| k in ks;
      ListValue(stock[k]) + ValueOver(stock, ks - {k})
  }

  /** Any key can be taken out of ValueOver first. */
  lemma {:induction false} ValueOverSplit(stock: Stock, ks: set<string>, k: string)
    requires ks <= stock.Keys && k in ks
    ensures ValueOver(stock, ks) == ListValue(stock[k]) + ValueOver(stock, ks - {k})
    decreases ks
  {
    var c :| c in ks && ValueOver(stock, ks) == ListValue(stock[c]) + ValueOver(stock, ks - {c});
    if c != k {
      ValueOverSplit(stock, ks - {c}, k);
      ValueOverSplit(stock, ks - {k}, c);
      assert ks - {c} - {k} == ks - {k} - {c};
    }
  }

  /** Values are never negative, so the total value of a store is never negative. */
  lemma {:induction false} ValueOverNonNegative(stock: Stock, ks: set<string>)
    requires ks <= stock.Keys
    requires forall k, j :: k in stock && 0 <= j < |stock[k]| ==> stock[k][j].value >= 0.0
    ensures ValueOver(stock, ks) >= 0.0
    decreases ks
  {
    if ks != {} {
      var k :| k in ks;
      ValueOverSplit(stock, ks, k);
      ValueOverNonNegative(stock, ks - {k});
      ListValueNonNegative(stock[k]);
    }
  }

  lemma {:induction false} ListValueNonNegative(entries: seq<Ingredient>)
    requires forall j :: 0 <= j < |entries| ==> entries[j].value >= 0.0
    ensures ListValue(entries) >= 0.0
  {
    if entries != [] {
      ListValueNonNegative(entries[..|entries| - 1]);
    }
  }

  /** A required amount of a named ingredient: the parts of a Measurement that isIngredientEnough reads. */
  datatype Requirement = Requirement(name: string, need: Reading)

  /** The conversion isAmountEnough applies to each batch: convertIngredient with the requirement's unit. */
  type Conversion = Ingredient -> Result<Ingredient, ConvError>

  /**
   * isAmountEnough's loop over one list with the conversion `conv`: each batch
   * converted in turn. The first conversion that throws stops it, leaving the
   * batches before it converted and the rest as they were.
   */
  function ConvertEach(entries: seq<Ingredient>, conv: Conversion): (r: (seq<Ingredient>, Option<ConvError>))
    ensures |r.0| == |entries|
  {
    if entries == [] then ([], None)
    else match conv(entries[0])
      case Err(e) => (entries, Some(e))
      case Ok(c) =>
        var rest := ConvertEach(entries[1..], conv);
        ([c] + rest.0, rest.1)
  }

  /** The loop with every batch converted to `target`. */
  function ConvertEntries(entries: seq<Ingredient>, target: Option<Unit>): (seq<Ingredient>, Option<ConvError>)
  {
    ConvertEach(entries, e => ConvertIngredient(e, target))
  }

  /**
   * The loop renames nothing and moves no expiry day; it gets through exactly
   * when every batch converts, and then every batch is its own conversion.
   */
  lemma ConvertEntriesMeaning(entries: seq<Ingredient>, target: Option<Unit>)
    ensures var r := ConvertEntries(entries, target);
            forall j :: 0 <= j < |entries| ==> r.0[j].name == entries[j].name && r.0[j].expiry == entries[j].expiry
    ensures ConvertEntries(entries, target).1.None? <==> forall j :: 0 <= j < |entries| ==> ConvertIngredient(entries[j], target).Ok?
    ensures ConvertEntries(entries, target).1.None? ==>
              forall j :: 0 <= j < |entries| ==> ConvertEntries(entries, target).0[j] == ConvertIngredient(entries[j], target).value
  {
    ConvertEntriesKeeps(entries, target);
    ConvertEntriesThrough(entries, target);
  }

  /** No batch is renamed or moved to another day. */
  lemma {:induction false} ConvertEntriesKeeps(entries: seq<Ingredient>, target: Option<Unit>)
    ensures var r := ConvertEntries(entries, target);
            forall j :: 0 <= j < |entries| ==> r.0[j].name == entries[j].name && r.0[j].expiry == entries[j].expiry
  {
    if entries != [] {
      var tail := entries[1..];
      ConvertEntriesKeeps(tail, target);
      assert forall j :: 1 <= j < |entries| ==> entries[j] == tail[j - 1];
    }
  }

  /** The loop gets through exactly when every batch converts, and then each batch is its conversion. */
  lemma {:induction false} ConvertEntriesThrough(entries: seq<Ingredient>, target: Option<Unit>)
    ensures ConvertEntries(entries, target).1.None? <==> forall j :: 0 <= j < |entries| ==> ConvertIngredient(entries[j], target).Ok?
    ensures ConvertEntries(entries, target).1.None? ==>
              forall j :: 0 <= j < |entries| ==> ConvertEntries(entries, target).0[j] == ConvertIngredient(entries[j], target).value
  {
    if entries != [] {
      var tail := entries[1..];
      ConvertEntriesThrough(tail, target);
      assert forall j :: 1 <= j < |entries| ==> entries[j] == tail[j - 1];
    }
  }

  /**
   * When every batch converts, the loop gets through and each batch is
   * replaced by its conversion.
   */
  lemma {:induction false} ConvertEachAllOk(entries: seq<Ingredient>, conv: Conversion)
    requires forall n :: 0 <= n < |entries| ==> conv(entries[n]).Ok?
    ensures ConvertEach(entries, conv).1.None?
    ensures forall n :: 0 <= n < |entries| ==> ConvertEach(entries, conv).0[n] == conv(entries[n]).value
  {
    if entries != [] {
      var tail := entries[1..];
      assert forall n :: 1 <= n < |entries| ==> entries[n] == tail[n - 1];
      ConvertEachAllOk(tail, conv);
    }
  }

  /**
   * When the batch at j is the first that throws, the loop stops with its
   * exception: the batches before j are converted and the rest are as they were.
   */
  lemma {:induction false} ConvertEachStopsAt(entries: seq<Ingredient>, j: nat, conv: Conversion)
    requires j < |entries| && conv(entries[j]).Err?
    requires forall n :: 0 <= n < j ==> conv(entries[n]).Ok?
    ensures ConvertEach(entries, conv).1 == Some(conv(entries[j]).error)
    ensures forall n :: 0 <= n < |entries| ==>
              ConvertEach(entries, conv).0[n] == if n < j then conv(entries[n]).value else entries[n]
    decreases j
  {
    if j > 0 {
      var tail := entries[1..];
      assert forall n :: 1 <= n < |entries| ==> entries[n] == tail[n - 1];
      ConvertEachStopsAt(tail, j - 1, conv);
    }
  }

  /** Overwriting the batch at j and counting it adds its new amount to the sum. */
  lemma TotalGrows(entries: seq<Ingredient>, j: nat, c: Ingredient)
    requires j < |entries|
    ensures Total(entries[j := c][..j + 1]) == Total(entries[..j]) + c.stock.amount
  {
    assert entries[j := c][..j + 1] == entries[..j] + [c];
    assert (entries[..j] + [c])[..j] == entries[..j];
  }

  /** isAmountEnough: the list after its in-place conversion, and whether its converted amounts add up to the need. */
  function AmountCheck(entries: seq<Ingredient>, need: Reading): (seq<Ingredient>, Result<bool, ConvError>)
  {
    var (converted, failure) := ConvertEntries(entries, need.unit);
    (converted, if failure.Some? then Err(failure.value) else Ok(Total(converted) >= need.amount))
  }

  /**
   * isIngredientEnough as written: the requirements are taken in order, each
   * one's list is rewritten into the requirement's unit before the next is
   * looked at, and the first requirement whose key is missing or whose amount
   * falls short ends the check with false.
   */
  function Check(stock: Stock, key: string -> string, reqs: seq<Requirement>): (r: (Stock, Result<bool, Fault>))
    ensures r.0.Keys == stock.Keys
    ensures r.1 == Ok(true) ==> forall n :: 0 <= n < |reqs| ==> key(reqs[n].name) in stock
    decreases |reqs|
  {
    if reqs == [] then (stock, Ok(true))
    else
      var k := key(reqs[0].name);
      if k !in stock then (stock, Ok(false))
      else
        var (converted, enough) := AmountCheck(stock[k], reqs[0].need);
        var next := stock[k := converted];
        match enough
        case Err(e) => (next, Err(Conversion(e)))
        case Ok(b) => if b then Check(next, key, reqs[1..]) else (next, Ok(false))
  }

  /**
   * The check stops at the first requirement it cannot meet: checking `a + b`
   * is checking `a` and, only when all of `a` holds, checking `b` on the store
   * `a` left behind.
   */
  lemma {:induction false} CheckAppend(stock: Stock, key: string -> string, a: seq<Requirement>, b: seq<Requirement>)
    ensures Check(stock, key, a + b) ==
              if Check(stock, key, a).1 == Ok(true) then Check(Check(stock, key, a).0, key, b) else Check(stock, key, a)
    decreases |a|
  {
    if a != [] {
      assert (a + b)[0] == a[0] && (a + b)[1..] == a[1..] + b;
      var k := key(a[0].name);
      if k in stock {
        var (converted, enough) := AmountCheck(stock[k], a[0].need);
        CheckAppend(stock[k := converted], key, a[1..], b);
      }
    } else {
      assert a + b == b;
    }
  }

  /** Conversions rename nothing and move no expiry day, so the check keeps the store well formed. */
  lemma {:induction false} CheckPreservesWellFormed(stock: Stock, key: string -> string, reqs: seq<Requirement>)
    requires WellFormed(stock, key)
    ensures WellFormed(Check(stock, key, reqs).0, key)
    decreases |reqs|
  {
    if reqs != [] {
      var k := key(reqs[0].name);
      if k in stock {
        var converted := AmountCheck(stock[k], reqs[0].need).0;
        var next := stock[k := converted];
        ConvertEntriesMeaning(stock[k], reqs[0].need.unit);
        assert DistinctDates(converted) by {
          forall a, b | 0 <= a < b < |converted| ensures converted[a].expiry != converted[b].expiry {
            assert converted[a].expiry == stock[k][a].expiry && converted[b].expiry == stock[k][b].expiry;
          }
        }
        assert Filed(next, key) by {
          forall k', j | k' in next && 0 <= j < |next[k']| ensures key(next[k'][j].name) == k' {
            if k' == k {
              assert next[k'][j].name == stock[k][j].name;
            }
          }
        }
        CheckPreservesWellFormed(next, key, reqs[1..]);
      }
    }
  }

  /** A requirement the store can cover: its key is filed and the list, converted to its unit, adds up to enough. */
  predicate Covered(stock: Stock, key: string -> string, m: Requirement)
  {
    key(m.name) in stock && AmountCheck(stock[key(m.name)], m.need).1 == Ok(true)
  }

  /**
   * What isIngredientEnough is meant to answer: every requirement checked
   * against the store as it is, without rewriting it, stopping at the first one
   * that is not covered or whose conversion throws.
   */
  function Sufficient(stock: Stock, key: string -> string, reqs: seq<Requirement>): (r: Result<bool, Fault>)
    decreases |reqs|
  {
    if reqs == [] then Ok(true)
    else
      var k := key(reqs[0].name);
      if k !in stock then Ok(false)
      else match AmountCheck(stock[k], reqs[0].need).1
        case Err(e) => Err(Conversion(e))
        case Ok(b) => if b then Sufficient(stock, key, reqs[1..]) else Ok(false)
  }

  /** The intended check says yes exactly when every requirement is covered. */
  lemma {:induction false} SufficientMeaning(stock: Stock, key: string -> string, reqs: seq<Requirement>)
    ensures Sufficient(stock, key, reqs) == Ok(true) <==> forall n :: 0 <= n < |reqs| ==> Covered(stock, key, reqs[n])
    decreases |reqs|
  {
    if reqs != [] {
      SufficientMeaning(stock, key, reqs[1..]);
      assert forall n :: 1 <= n < |reqs| ==> reqs[n] == reqs[1..][n - 1];
      if Sufficient(stock, key, reqs) != Ok(true) && Covered(stock, key, reqs[0]) {
        var n :| 0 <= n < |reqs[1..]| && !Covered(stock, key, reqs[1..][n]);
        assert !Covered(stock, key, reqs[n + 1]);
      }
    }
  }

  /** On a single requirement the check as written and the intended one agree. */
  lemma CheckOneIsSufficient(stock: Stock, key: string -> string, m: Requirement)
    ensures Check(stock, key, [m]).1 == Sufficient(stock, key, [m])
  {
    assert [m][1..] == [];
  }

  /** The intended check never looks at a key that no requirement names. */
  lemma {:induction false} SufficientIgnoresOthers(stock: Stock, key: string -> string, reqs: seq<Requirement>, k: string, l: seq<Ingredient>)
    requires forall n :: 0 <= n < |reqs| ==> key(reqs[n].name) != k
    ensures Sufficient(stock[k := l], key, reqs) == Sufficient(stock, key, reqs)
    decreases |reqs|
  {
    if reqs != [] {
      assert forall n :: 1 <= n < |reqs| ==> reqs[n] == reqs[1..][n - 1];
      SufficientIgnoresOthers(stock, key, reqs[1..], k, l);
    }
  }

  /**
   * When no two requirements share a key, no requirement sees a list an earlier
   * one rewrote, so the check as written answers the intended question.
   */
  lemma {:induction false} CheckDistinctIsSufficient(stock: Stock, key: string -> string, reqs: seq<Requirement>)
    requires forall a, b :: 0 <= a < b < |reqs| ==> key(reqs[a].name) != key(reqs[b].name)
    ensures Check(stock, key, reqs).1 == Sufficient(stock, key, reqs)
    decreases |reqs|
  {
    if reqs != [] {
      var k := key(reqs[0].name);
      var tail := reqs[1..];
      assert forall n :: 0 <= n < |tail| ==> tail[n] == reqs[n + 1];
      if k in stock {
        var converted := AmountCheck(stock[k], reqs[0].need).0;
        CheckDistinctIsSufficient(stock[k := converted], key, tail);
        SufficientIgnoresOthers(stock, key, tail, k, converted);
      }
    }
  }

  /**
   * The check as written does not answer the intended question. With 1234 ml of
   * milk and the requirements 1 l then 1232 ml, the first requirement rewrites
   * the batch to 1.23 l, which the second turns into 1230 ml: the store has lost
   * 4 ml to a query, and the check says no though the store holds enough for
   * each requirement taken alone.
   */
  lemma CheckRewritesStore()
    ensures var key := (s: string) => s;
            var stock := map["milk" := [Ingredient("milk", Reading(1234.0, Some(ML)), 10.0, 7)]];
            var reqs := [Requirement("milk", Reading(1.0, Some(L))), Requirement("milk", Reading(1232.0, Some(ML)))];
            && Check(stock, key, reqs) == (map["milk" := [Ingredient("milk", Reading(1230.0, Some(ML)), 10.0, 7)]], Ok(false))
            && Sufficient(stock, key, reqs) == Ok(true)
  {
    var key := (s: string) => s;
    var batch := Ingredient("milk", Reading(1234.0, Some(ML)), 10.0, 7);
    var litres := Ingredient("milk", Reading(1.23, Some(L)), 10.0, 7);
    var millis := Ingredient("milk", Reading(1230.0, Some(ML)), 10.0, 7);
    var stock := map["milk" := [batch]];
    var reqs := [Requirement("milk", Reading(1.0, Some(L))), Requirement("milk", Reading(1232.0, Some(ML)))];
    assert (1234.0 * 0.001 * 100.0 + 0.5).Floor == 123;
    assert ConvertIngredient(batch, Some(L)) == Ok(litres);
    assert (1.23 * 1000.0 * 100.0 + 0.5).Floor == 123000;
    assert ConvertIngredient(litres, Some(ML)) == Ok(millis);
    assert (1234.0 * 1.0 * 100.0 + 0.5).Floor == 123400;
    assert ConvertIngredient(batch, Some(ML)) == Ok(batch);
    assert [batch][1..] == [] && [litres][1..] == [] && [millis][1..] == [];
    assert Total([litres]) == 1.23 && Total([millis]) == 1230.0 && Total([batch]) == 1234.0;
    assert reqs[1..][1..] == [];
    assert ConvertEntries([], Some(L)) == ([], None) && ConvertEntries([], Some(ML)) == ([], None);
    assert [litres] + [] == [litres] && [millis] + [] == [millis] && [batch] + [] == [batch];
    assert ConvertEntries([batch], Some(L)) == ([litres], None);
    assert AmountCheck([batch], reqs[0].need) == ([litres], Ok(true));
    assert stock["milk" := [litres]] == map["milk" := [litres]];
    assert Check(stock, key, reqs) == Check(map["milk" := [litres]], key, reqs[1..]);
    assert ConvertEntries([litres], Some(ML)) == ([millis], None);
    assert AmountCheck([litres], reqs[1].need) == ([millis], Ok(false));
    assert reqs[1..][0] == reqs[1];
    assert map["milk" := [litres]]["milk" := [millis]] == map["milk" := [millis]];
    assert Check(map["milk" := [litres]], key, reqs[1..]) == (map["milk" := [millis]], Ok(false));
    assert ConvertEntries([batch], Some(ML)) == ([batch], None);
    assert AmountCheck([batch], reqs[1].need) == ([batch], Ok(true));
    assert Sufficient(stock, key, reqs) == Sufficient(stock, key, reqs[1..]);
  }

  /** What removeExpired reports instead of printing. */
  datatype Sweep = NothingToCheck | Removed(batches: seq<Ingredient>)

  /** The outcome of a storage update: the new map on success; on a throw, the map as before. */
  ghost predicate Stored(before: Stock, r: Result<Stock, Fault>, after: Stock, res: Outcome<Fault>)
  {
    match r
    case Ok(s) => after == s && res == Pass
    case Err(e) => after == before && res == Fail(e)
  }

  /** IngredientStorage: a storage name and the ingredient map, filed by the storage's key function. */
  class IngredientStorage {
    var storageName: string
    var ingredients: Stock
    /** Utility.createKey, the normalisation from a name to a map key; the overload on an ingredient is taken to key by its name. */
    const createKey: string -> string

    /** A storage starts with its name and an empty map. */
    constructor (storageName: string, createKey: string -> string)
      ensures this.storageName == storageName && this.createKey == createKey
      ensures ingredients == map[] && Valid()
    {
      this.storageName := storageName;
      this.createKey := createKey;
      ingredients := map[];
    }

    /** The invariant every update keeps. */
    ghost predicate Valid()
      reads this
    {
      WellFormed(ingredients, createKey)
    }

    /** addIngredient: a null ingredient throws; otherwise merge or append as Add says. */
    method AddIngredient(ingredient: Option<Ingredient>) returns (res: Outcome<Fault>)
      modifies this`ingredients
      ensures ingredient.None? ==> res == Fail(NullIngredient) && ingredients == old(ingredients)
      ensures ingredient.Some? ==> Stored(old(ingredients), Add(old(ingredients), createKey, ingredient.value), ingredients, res)
      ensures old(Valid()) ==> Valid()
    {
      if ingredient.None? {
        return Fail(NullIngredient);
      }
      var i := ingredient.value;
      if HasMatchingExpiryDate(i) {
        res := MergeIngredient(i);
      } else {
        AddToList(ingredient);
        res := Pass;
      }
      if old(Valid()) && res == Pass {
        AddPreservesWellFormed(old(ingredients), createKey, i);
      }
    }

    /** hasMatchingExpiryDate: the list under the ingredient's key holds a batch with its expiry day. */
    predicate HasMatchingExpiryDate(i: Ingredient)
      reads this
      ensures HasMatchingExpiryDate(i) <==>
                && createKey(i.name) in ingredients
                && exists j :: 0 <= j < |ingredients[createKey(i.name)]| && ingredients[createKey(i.name)][j].expiry == i.expiry
    {
      HasDate(ingredients, createKey(i.name), i.expiry)
    }

    /** mergeIngredient: merges into the batch found by the date-qualified lookup, as MergeInto says. */
    method MergeIngredient(i: Ingredient) returns (res: Outcome<Fault>)
      modifies this`ingredients
      ensures Stored(old(ingredients), MergeInto(old(ingredients), i), ingredients, res)
    {
      var lk := ToLower(i.name);
      if lk !in ingredients {
        return Fail(NullList);
      }
      var found := FirstOn(ingredients[lk], i.expiry);
      if found.None? {
        return Fail(NullList);
      }
      var j := found.value;
      var merged := Merge(ingredients[lk][j], i);
      if merged.Err? {
        return Fail(Conversion(merged.error));
      }
      ingredients := ingredients[lk := ingredients[lk][j := merged.value]];
      res := Pass;
    }

    /** addToList: a null ingredient is ignored; otherwise it is appended under its key. */
    method AddToList(ingredient: Option<Ingredient>)
      modifies this`ingredients
      ensures ingredient.None? ==> ingredients == old(ingredients)
      ensures ingredient.Some? ==> ingredients == AppendTo(old(ingredients), createKey(ingredient.value.name), ingredient.value)
    {
      if ingredient.Some? {
        var k := createKey(ingredient.value.name);
        ingredients := ingredients[k := ListAt(ingredients, k) + [ingredient.value]];
      }
    }

    /** removeIngredient: null gives false; otherwise removal as Remove says. */
    method RemoveIngredient(x: Option<Ingredient>) returns (r: Result<bool, Fault>)
      modifies this`ingredients
      ensures x.None? ==> r == Ok(false) && ingredients == old(ingredients)
      ensures x.Some? && Remove(old(ingredients), createKey, x.value).Err? ==>
                r == Err(Remove(old(ingredients), createKey, x.value).error) && ingredients == old(ingredients)
      ensures x.Some? && Remove(old(ingredients), createKey, x.value).Ok? ==>
                var (s, removed) := Remove(old(ingredients), createKey, x.value).value;
                r == Ok(removed) && ingredients == s
      ensures old(Valid()) ==> Valid()
    {
      if x.None? {
        return Ok(false);
      }
      var list := FindIngredient(x.value.name);
      if list.None? {
        return Err(NullList);
      }
      var status := x.value in list.value;
      var rest := RemoveFirst(list.value, x.value);
      var k := createKey(x.value.name);
      if rest == [] {
        ingredients := ingredients - {k};
      } else {
        ingredients := ingredients[k := rest];
      }
      r := Ok(status);
      if old(Valid()) {
        RemovePreservesWellFormed(old(ingredients), createKey, x.value);
      }
    }

    /** findIngredient(name), and getIngredientList(name): the list under the name's key, or null. */
    function FindIngredient(name: string): (r: Option<seq<Ingredient>>)
      reads this
      ensures r.Some? <==> createKey(name) in ingredients
      ensures r.Some? ==> r.value == ingredients[createKey(name)]
    {
      if createKey(name) in ingredients then Some(ingredients[createKey(name)]) else None
    }

    /**
     * findIngredient(name, date): the first batch on that day in the list under
     * the lower-cased name; a name with no list there is a NullPointerException.
     */
    function FindIngredientOn(name: string, date: int): (r: Result<Option<Ingredient>, Fault>)
      reads this
      ensures r.Err? <==> ToLower(name) !in ingredients
      ensures r.Err? ==> r.error == NullList
      ensures r.Ok? && r.value.Some? ==>
                exists j :: && 0 <= j < |ingredients[ToLower(name)]|
                            && ingredients[ToLower(name)][j] == r.value.value
                            && r.value.value.expiry == date
                            && forall n :: 0 <= n < j ==> ingredients[ToLower(name)][n].expiry != date
      ensures r.Ok? && r.value.None? ==>
                forall e :: e in ingredients[ToLower(name)] ==> e.expiry != date
    {
      var lk := ToLower(name);
      if lk !in ingredients then Err(NullList)
      else match FirstOn(ingredients[lk], date)
        case None => Ok(None)
        case Some(j) => Ok(Some(ingredients[lk][j]))
    }

    /** isIngredientPresent: a list is filed under the name's key. */
    predicate IsIngredientPresent(name: string)
      reads this
      ensures IsIngredientPresent(name) <==> FindIngredient(name).Some?
    {
      createKey(name) in ingredients
    }

    /** isAmountEnough: converts the list under `k` in place while summing, as AmountCheck says. */
    method IsAmountEnough(k: string, m: Requirement) returns (r: Result<bool, ConvError>)
      requires k in ingredients
      modifies this`ingredients
      ensures ingredients == old(ingredients)[k := AmountCheck(old(ingredients)[k], m.need).0]
      ensures r == AmountCheck(old(ingredients)[k], m.need).1
    {
      var entries := ingredients[k];
      ghost var original := entries;
      ghost var t: Conversion := e => ConvertIngredient(e, m.need.unit);
      var sum := 0.0;
      var j := 0;
      while j < |entries|
        invariant 0 <= j <= |entries| == |original|
        invariant ingredients == old(ingredients)
        invariant forall n :: 0 <= n < j ==> t(original[n]).Ok? && entries[n] == t(original[n]).value
        invariant forall n :: j <= n < |entries| ==> entries[n] == original[n]
        invariant sum == Total(entries[..j])
      {
        var c := ConvertIngredient(entries[j], m.need.unit);
        if c.Err? {
          ConvertEachStopsAt(original, j, t);
          assert entries == ConvertEach(original, t).0;
          ingredients := ingredients[k := entries];
          return Err(c.error);
        }
        TotalGrows(entries, j, c.value);
        entries := entries[j := c.value];
        sum := sum + c.value.stock.amount;
        j := j + 1;
      }
      ConvertEachAllOk(original, t);
      assert entries == ConvertEach(original, t).0;
      assert entries[..j] == entries;
      ingredients := ingredients[k := entries];
      r := Ok(sum >= m.need.amount);
    }

    /** isIngredientEnough: the flag-driven loop over the requirements, as Check says, store rewriting included. */
    method IsIngredientEnough(reqs: seq<Requirement>) returns (r: Result<bool, Fault>)
      modifies this`ingredients
      ensures (ingredients, r) == Check(old(ingredients), createKey, reqs)
      ensures old(Valid()) ==> Valid()
    {
      var enough := true;
      var finished := false;
      var n := 0;
      while !finished && n < |reqs|
        invariant 0 <= n <= |reqs|
        invariant finished ==> !enough && Check(old(ingredients), createKey, reqs) == (ingredients, Ok(false))
        invariant !finished ==> enough && Check(old(ingredients), createKey, reqs) == Check(ingredients, createKey, reqs[n..])
        decreases |reqs| - n
      {
        var m := reqs[n];
        assert reqs[n..][0] == m && reqs[n..][1..] == reqs[n + 1..];
        n := n + 1;
        var k := createKey(m.name);
        if k !in ingredients {
          enough := false;
          finished := true;
        } else {
          var ok := IsAmountEnough(k, m);
          if ok.Err? {
            r := Err(Conversion(ok.error));
            if old(Valid()) {
              CheckPreservesWellFormed(old(ingredients), createKey, reqs);
            }
            return;
          }
          if !ok.value {
            enough := false;
            finished := true;
          }
        }
      }
      r := Ok(enough);
      if old(Valid()) {
        CheckPreservesWellFormed(old(ingredients), createKey, reqs);
      }
    }

    /** The intended check, reading the store without changing it. */
    method IsIngredientSufficient(reqs: seq<Requirement>) returns (r: Result<bool, Fault>)
      ensures r == Sufficient(ingredients, createKey, reqs)
    {
      var n := 0;
      while n < |reqs|
        invariant 0 <= n <= |reqs|
        invariant Sufficient(ingredients, createKey, reqs) == Sufficient(ingredients, createKey, reqs[n..])
      {
        assert reqs[n..][0] == reqs[n] && reqs[n..][1..] == reqs[n + 1..];
        var k := createKey(reqs[n].name);
        if k !in ingredients {
          return Ok(false);
        }
        var enough := AmountCheck(ingredients[k], reqs[n].need).1;
        if enough.Err? {
          return Err(Conversion(enough.error));
        }
        if !enough.value {
          return Ok(false);
        }
        n := n + 1;
      }
      r := Ok(true);
    }

    /**
     * removeExpired: an empty map is left alone; otherwise every list loses its
     * batches expired before `today`, emptied lists stay filed, and the removed
     * batches are returned.
     */
    method RemoveExpired(today: int) returns (r: Sweep)
      modifies this`ingredients
      ensures old(ingredients) == map[] ==> r == NothingToCheck && ingredients == old(ingredients)
      ensures old(ingredients) != map[] ==>
                && r.Removed?
                && ingredients == Swept(old(ingredients), today)
                && multiset(r.batches) == ExpiredOver(old(ingredients), old(ingredients).Keys, today)
      ensures old(Valid()) ==> Valid()
    {
      if ingredients == map[] {
        return NothingToCheck;
      }
      ghost var start := ingredients;
      var removed: seq<Ingredient> := [];
      var pending := ingredients.Keys;
      assert ingredients == SweptOn(start, {}, today);
      while pending != {}
        invariant pending <= start.Keys
        invariant ingredients == SweptOn(start, start.Keys - pending, today)
        invariant multiset(removed) + ExpiredOver(start, pending, today) == ExpiredOver(start, start.Keys, today)
        decreases pending
      {
        var k :| k in pending;
        SweepStep(start, pending, k, ingredients, removed, today);
        removed := removed + Expired(ingredients[k], today);
        ingredients := ingredients[k := Keep(ingredients[k], today)];
        pending := pending - {k};
      }
      assert start.Keys - pending == start.Keys;
      SweptOnAll(start, today);
      r := Removed(removed);
      if old(Valid()) {
        SweptPreservesWellFormed(start, createKey, today);
      }
    }

    /** getAllExpired: the batches expired before `today`, gathered across every list, the map untouched. */
    method GetAllExpired(today: int) returns (r: seq<Ingredient>)
      ensures multiset(r) == ExpiredOver(ingredients, ingredients.Keys, today)
      ensures forall e :: e in r ==> e.expiry < today
    {
      r := [];
      var pending := ingredients.Keys;
      while pending != {}
        invariant pending <= ingredients.Keys
        invariant multiset(r) + ExpiredOver(ingredients, pending, today) == ExpiredOver(ingredients, ingredients.Keys, today)
        decreases pending
      {
        var k :| k in pending;
        ExpiredOverSplit(ingredients, pending, k, today);
        r := r + Expired(ingredients[k], today);
        pending := pending - {k};
      }
      ExpiredOverExpired(ingredients, ingredients.Keys, today);
      assert forall e :: e in r ==> e in multiset(r);
    }

    /** getAllValue: the values of every batch in the storage, added up. */
    method GetAllValue() returns (total: real)
      ensures total == ValueOver(ingredients, ingredients.Keys)
    {
      total := 0.0;
      var pending := ingredients.Keys;
      while pending != {}
        invariant pending <= ingredients.Keys
        invariant total + ValueOver(ingredients, pending) == ValueOver(ingredients, ingredients.Keys)
        decreases pending
      {
        var k :| k in pending;
        ValueOverSplit(ingredients, pending, k);
        total := total + ListValue(ingredients[k]);
        pending := pending - {k};
      }
    }
  }
}
