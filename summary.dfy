/** The order of the score board's summary: total score descending, then
    creation time descending (src/main/java/game/ScoreBoard.java, getSummary). */
module Summary {
  import opened Teams
  import opened Games
  import GameTimeComparator

  /** What the summary ranks a game by: its total score and its creation time. */
  datatype Key = Key(total: int, time: nat)

  function KeyOf(game: Game): Key
    reads game.homeTeam, game.awayTeam
  {
    Key(game.TotalScore(), game.timeOfCreation)
  }

  /** k1 may come before k2: a higher total, or the same total and a creation
      time no earlier. */
  predicate AtOrBefore(k1: Key, k2: Key)
  {
    k1.total > k2.total || (k1.total == k2.total && k1.time >= k2.time)
  }

  /** The sign of comparing two integers, as the boxed integer comparison does. */
  function IntegerCompare(x: int, y: int): (r: int)
    ensures -1 <= r <= 1
    ensures r < 0 <==> x < y
    ensures r == 0 <==> x == y
  {
    if x < y then -1 else if x == y then 0 else 1
  }

  /** The summary's comparator: total score, reversed, then the creation-time
      comparator for equal totals. */
  function SummaryCompare(game1: Game, game2: Game): (r: int)
    reads game1.homeTeam, game1.awayTeam, game2.homeTeam, game2.awayTeam
    ensures r <= 0 <==> AtOrBefore(KeyOf(game1), KeyOf(game2))
    ensures r == 0 <==> KeyOf(game1) == KeyOf(game2)
  {
    var byTotal := IntegerCompare(game2.TotalScore(), game1.TotalScore());
    if byTotal != 0 then byTotal else GameTimeComparator.Compare(game1, game2)
  }

  /** Swapping the arguments flips the sign, as the Comparator contract requires. */
  lemma SummaryCompareAntisymmetric(game1: Game, game2: Game)
    ensures SummaryCompare(game1, game2) < 0 <==> SummaryCompare(game2, game1) > 0
    ensures SummaryCompare(game1, game2) == 0 <==> SummaryCompare(game2, game1) == 0
  {
  }

  /** "Not after" is transitive, as the Comparator contract requires. */
  lemma SummaryCompareTransitive(game1: Game, game2: Game, game3: Game)
    requires SummaryCompare(game1, game2) <= 0 && SummaryCompare(game2, game3) <= 0
    ensures SummaryCompare(game1, game3) <= 0
  {
  }

  /** The teams whose scores the order of a sequence of games depends on. */
  function TeamsOf(games: seq<Game>): set<Team>
  {
    (set game | game in games :: game.homeTeam) + (set game | game in games :: game.awayTeam)
  }

  /** Every game is ranked no later than every game after it. */
  ghost predicate Sorted(games: seq<Game>)
    reads TeamsOf(games)
  {
    forall i, j | 0 <= i < j < |games| :: SummaryCompare(games[i], games[j]) <= 0
  }

  /** The ranking keys of a sequence of games, position by position. */
  function KeysOf(games: seq<Game>): (keys: seq<Key>)
    reads TeamsOf(games)
    ensures |keys| == |games|
  {
    if games == [] then [] else [KeyOf(games[0])] + KeysOf(games[1..])
  }

  lemma {:induction false} KeysOfAt(games: seq<Game>, i: nat)
    requires i < |games|
    ensures KeysOf(games)[i] == KeyOf(games[i])
  {
    if i > 0 {
      KeysOfAt(games[1..], i - 1);
    }
  }

  ghost predicate KeysSorted(keys: seq<Key>)
  {
    forall i, j | 0 <= i < j < |keys| :: AtOrBefore(keys[i], keys[j])
  }

  /** A sequence of games is sorted exactly when its keys are. */
  lemma SortedByKeys(games: seq<Game>)
    ensures Sorted(games) <==> KeysSorted(KeysOf(games))
  {
    var keys := KeysOf(games);
    if Sorted(games) {
      forall i, j | 0 <= i < j < |keys| ensures AtOrBefore(keys[i], keys[j]) {
        KeysOfAt(games, i);
        KeysOfAt(games, j);
        assert SummaryCompare(games[i], games[j]) <= 0;
      }
    }
    if KeysSorted(keys) {
      forall i, j | 0 <= i < j < |games| ensures SummaryCompare(games[i], games[j]) <= 0 {
        KeysOfAt(games, i);
        KeysOfAt(games, j);
        assert AtOrBefore(keys[i], keys[j]);
      }
    }
  }

  /** Putting a key after every key ranked no later than it, and before the
      first key ranked later, keeps a sorted sequence sorted. */
  lemma InsertKeepsSorted(keys: seq<Key>, i: nat, key: Key)
    requires KeysSorted(keys)
    requires i <= |keys|
    requires forall k | 0 <= k < i :: AtOrBefore(keys[k], key)
    requires i < |keys| ==> !AtOrBefore(keys[i], key)
    ensures KeysSorted(keys[..i] + [key] + keys[i..])
  {
    var result := keys[..i] + [key] + keys[i..];
    forall p, q | 0 <= p < q < |result|
      ensures AtOrBefore(result[p], result[q])
    {
      if q < i {
        assert result[p] == keys[p] && result[q] == keys[q];
      } else if q == i {
        assert result[p] == keys[p];
      } else if p == i {
        assert result[q] == keys[q - 1];
        assert AtOrBefore(keys[i], keys[q - 1]);
      } else if p < i {
        assert result[p] == keys[p] && result[q] == keys[q - 1];
      } else {
        assert result[p] == keys[p - 1] && result[q] == keys[q - 1];
      }
    }
  }

  /** Inserts a game into a sorted sequence after every game ranked no later
      than it, keeping the sequence sorted. */
  method InsertByRank(games: seq<Game>, game: Game) returns (result: seq<Game>)
    requires Sorted(games)
    ensures Sorted(result)
    ensures multiset(result) == multiset(games) + multiset{game}
  {
    var i := 0;
    while i < |games| && SummaryCompare(games[i], game) <= 0
      invariant 0 <= i <= |games|
      invariant forall k | 0 <= k < i :: SummaryCompare(games[k], game) <= 0
    {
      i := i + 1;
    }
    result := games[..i] + [game] + games[i..];
    assert games == games[..i] + games[i..];
    InsertedSorted(games, i, game);
  }

  /** The insertion point InsertByRank finds keeps the sequence sorted. */
  lemma InsertedSorted(games: seq<Game>, i: nat, game: Game)
    requires Sorted(games)
    requires i <= |games|
    requires forall k | 0 <= k < i :: SummaryCompare(games[k], game) <= 0
    requires i < |games| ==> SummaryCompare(games[i], game) > 0
    ensures Sorted(games[..i] + [game] + games[i..])
  {
    var result := games[..i] + [game] + games[i..];
    var keys := KeysOf(games);
    SortedByKeys(games);
    forall k | 0 <= k < i ensures AtOrBefore(keys[k], KeyOf(game)) {
      KeysOfAt(games, k);
    }
    if i < |games| {
      KeysOfAt(games, i);
    }
    InsertKeepsSorted(keys, i, KeyOf(game));
    assert games == games[..i] + games[i..];
    KeysOfAppend(games[..i] + [game], games[i..]);
    KeysOfAppend(games[..i], [game]);
    KeysOfAppend(games[..i], games[i..]);
    assert KeysOf([game]) == [KeyOf(game)];
    assert KeysOf(games[..i]) == keys[..i] && KeysOf(games[i..]) == keys[i..];
    assert KeysOf(result) == keys[..i] + [KeyOf(game)] + keys[i..];
    SortedByKeys(result);
  }

  /** Of two games ranked strictly apart, a sorted arrangement lists the
      higher-ranked one first. */
  lemma SortedPair(s: seq<Game>, first: Game, second: Game)
    requires Sorted(s) && multiset(s) == multiset{first, second}
    requires SummaryCompare(first, second) < 0
    ensures s == [first, second]
  {
    assert first != second;
    assert |s| == |multiset(s)| == 2;
    assert s[0] in multiset(s) && s[1] in multiset(s);
    assert multiset(s) == multiset{s[0], s[1]} by { assert s == [s[0], s[1]]; }
    assert SummaryCompare(s[0], s[1]) <= 0;
  }

  /** The first key of a sorted sequence is ranked no later than any of its keys. */
  lemma SortedHeadLeads(keys: seq<Key>, key: Key)
    requires KeysSorted(keys) && key in multiset(keys)
    ensures AtOrBefore(keys[0], key)
  {
    var i :| 0 <= i < |keys| && keys[i] == key;
    if i > 0 {
      assert AtOrBefore(keys[0], keys[i]);
    }
  }

  /** Two sorted sequences holding the same keys are equal: a sorted order of
      keys is unique. */
  lemma {:induction false} SortedKeysUnique(a: seq<Key>, b: seq<Key>)
    requires KeysSorted(a) && KeysSorted(b)
    requires multiset(a) == multiset(b)
    ensures a == b
  {
    if a == [] {
      assert |b| == |multiset(b)| == 0;
    } else {
      assert |b| == |multiset(b)| == |multiset(a)| == |a|;
      SortedHeadLeads(b, a[0]);
      SortedHeadLeads(a, b[0]);
      assert a[0] == b[0];
      assert multiset(a[1..]) == multiset(b[1..]) by {
        assert a == [a[0]] + a[1..];
        assert b == [b[0]] + b[1..];
        calc {
          multiset(a[1..]);
          multiset(a) - multiset{a[0]};
          multiset(b) - multiset{b[0]};
          multiset(b[1..]);
        }
      }
      assert KeysSorted(a[1..]) && KeysSorted(b[1..]);
      SortedKeysUnique(a[1..], b[1..]);
      assert a == [a[0]] + a[1..] && b == [b[0]] + b[1..];
    }
  }

  lemma {:induction false} KeysOfAppend(s: seq<Game>, t: seq<Game>)
    ensures KeysOf(s + t) == KeysOf(s) + KeysOf(t)
  {
    if s == [] {
      assert s + t == t;
    } else {
      assert (s + t)[0] == s[0];
      assert (s + t)[1..] == s[1..] + t;
      KeysOfAppend(s[1..], t);
    }
  }

  /** Taking one game out of a sequence takes its key out of the keys. */
  lemma {:induction false} KeysOfRemove(t: seq<Game>, j: nat)
    requires j < |t|
    ensures multiset(KeysOf(t)) == multiset(KeysOf(t[..j] + t[j + 1..])) + multiset{KeyOf(t[j])}
  {
    if j == 0 {
      assert t[..j] + t[j + 1..] == t[1..];
    } else {
      var tail := t[1..];
      var shorter := tail[..j - 1] + tail[j..];
      var first, removed := KeyOf(t[0]), KeyOf(t[j]);
      assert t[..j] + t[j + 1..] == [t[0]] + shorter;
      calc {
        multiset(KeysOf(t));
        multiset([first] + KeysOf(tail));
        multiset{first} + multiset(KeysOf(tail));
        { KeysOfRemove(tail, j - 1); assert tail[j - 1] == t[j]; }
        multiset{first} + multiset(KeysOf(shorter)) + multiset{removed};
        multiset([first] + KeysOf(shorter)) + multiset{removed};
        { assert ([t[0]] + shorter)[1..] == shorter; }
        multiset(KeysOf([t[0]] + shorter)) + multiset{removed};
      }
    }
  }

  /** Taking the first element out of a multiset of games leaves the rest. */
  lemma RemoveFromPermutation(s: seq<Game>, t: seq<Game>, j: nat)
    requires multiset(s) == multiset(t)
    requires s != [] && j < |t| && t[j] == s[0]
    ensures multiset(s[1..]) == multiset(t[..j] + t[j + 1..])
  {
    assert s == [s[0]] + s[1..];
    assert t == t[..j] + [t[j]] + t[j + 1..];
    calc {
      multiset(s[1..]);
      multiset(s) - multiset{s[0]};
      multiset(t) - multiset{s[0]};
      multiset(t[..j]) + multiset(t[j + 1..]);
      multiset(t[..j] + t[j + 1..]);
    }
  }

  /** Permuting games permutes their keys. */
  lemma {:induction false} KeysOfPermutation(s: seq<Game>, t: seq<Game>)
    requires multiset(s) == multiset(t)
    ensures multiset(KeysOf(s)) == multiset(KeysOf(t))
  {
    if s == [] {
      assert |t| == |multiset(t)| == 0;
    } else {
      assert s[0] in multiset(t);
      var j :| 0 <= j < |t| && t[j] == s[0];
      var rest := t[..j] + t[j + 1..];
      RemoveFromPermutation(s, t, j);
      calc {
        multiset(KeysOf(s));
        multiset([KeyOf(s[0])] + KeysOf(s[1..]));
        multiset{KeyOf(s[0])} + multiset(KeysOf(s[1..]));
        { KeysOfPermutation(s[1..], rest); }
        multiset{KeyOf(s[0])} + multiset(KeysOf(rest));
        { KeysOfRemove(t, j); }
        multiset(KeysOf(t));
      }
    }
  }

  /** Any two sorted arrangements of the same games list the same totals and
      creation times in the same order: only games equal on both keys can
      trade places. */
  lemma SummaryKeysDetermined(s: seq<Game>, t: seq<Game>)
    requires Sorted(s) && Sorted(t)
    requires multiset(s) == multiset(t)
    ensures KeysOf(s) == KeysOf(t)
  {
    KeysOfPermutation(s, t);
    SortedByKeys(s);
    SortedByKeys(t);
    SortedKeysUnique(KeysOf(s), KeysOf(t));
  }
}
