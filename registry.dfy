/** The list updaters the host pages pass to `setPlayers`, `setConnectedPhones` and
    `setPhoneIds`: append an entry unless its key is already listed, and filter out
    every entry with a given key. They are written once, over a key function: a
    player's `id`, a link's `peer`, or a phone id itself. */
module Registry {
  import opened Protocol

  /** A joined player as the host pages store it: `{id, nickname, connection}`. */
  datatype Player = Player(id: string, nickname: Option<string>, link: Link)

  function PlayerId(p: Player): string { p.id }
  function LinkPeer(l: Link): string { l.peer }

  /** The identity, as the key of a list of plain ids. */
  function Itself<K>(k: K): K { k }

  /** The players' connections, in list order. */
  function Links(ps: seq<Player>): (ls: seq<Link>)
    ensures |ls| == |ps|
    ensures forall i :: 0 <= i < |ps| ==> ls[i] == ps[i].link
  {
    seq(|ps|, i requires 0 <= i < |ps| => ps[i].link)
  }

  /** The keys of a list, in list order. */
  function Keys<T, K>(s: seq<T>, key: T -> K): (ks: seq<K>)
    ensures |ks| == |s|
    ensures forall i :: 0 <= i < |s| ==> ks[i] == key(s[i])
  {
    seq(|s|, i requires 0 <= i < |s| => key(s[i]))
  }

  /** `s.some(x => key(x) === k)`. */
  predicate HasKey<T, K(==)>(s: seq<T>, key: T -> K, k: K)
  {
    exists i :: 0 <= i < |s| && key(s[i]) == k
  }

  ghost predicate UniqueKeys<T, K>(s: seq<T>, key: T -> K)
  {
    forall i, j :: 0 <= i < j < |s| ==> key(s[i]) != key(s[j])
  }

  /** `prev.some(x => key(x) === key(e)) ? prev : [...prev, e]`: the entry is listed
      afterwards, and an entry already listed under that key is left untouched. */
  function AddIfAbsent<T, K(==)>(s: seq<T>, e: T, key: T -> K): (r: seq<T>)
    ensures HasKey(r, key, key(e))
    ensures HasKey(s, key, key(e)) ==> r == s
    ensures !HasKey(s, key, key(e)) ==> r == s + [e]
  {
    if HasKey(s, key, key(e)) then s
    else
      assert (s + [e])[|s|] == e;
      s + [e]
  }

  /** `prev.filter(x => key(x) !== k)`. */
  function RemoveKey<T(==), K(==)>(s: seq<T>, k: K, key: T -> K): (r: seq<T>)
    ensures |r| <= |s|
    ensures forall i :: 0 <= i < |r| ==> r[i] in s && key(r[i]) != k
    ensures forall i :: 0 <= i < |s| && key(s[i]) != k ==> s[i] in r
    decreases |s|
  {
    if s == [] then []
    else (if key(s[0]) == k then [] else [s[0]]) + RemoveKey(s[1..], k, key)
  }

  /** `s.find(x => key(x) === k)`, by index: the first position holding the key, or
      `|s|` when no entry holds it. */
  function FindIndex<T, K(==)>(s: seq<T>, key: T -> K, k: K): (i: nat)
    ensures i <= |s|
    ensures i < |s| ==> key(s[i]) == k
    ensures forall j :: 0 <= j < i ==> key(s[j]) != k
    decreases |s|
  {
    if s == [] then 0
    else if key(s[0]) == k then 0
    else 1 + FindIndex(s[1..], key, k)
  }

  function Find<T, K(==)>(s: seq<T>, key: T -> K, k: K): (r: Option<T>)
    ensures r.Some? <==> HasKey(s, key, k)
    ensures r.Some? ==> r.value == s[FindIndex(s, key, k)] && key(r.value) == k
  {
    var i := FindIndex(s, key, k);
    if i < |s| then Some(s[i]) else None
  }

  /** Sending `m` to each player whose connection is open reaches exactly those players,
      and sends nothing else. */
  lemma NotifyOpenPlayers(players: seq<Player>, open: set<Link>, m: Message, e: Effect)
    ensures e in Fanout(Links(players), open, true, SendMsg(m)) <==>
      e.Send? && e.msg == m && e.to in open && exists i :: 0 <= i < |players| && players[i].link == e.to
  {
    FanoutExact(Links(players), open, true, SendMsg(m), e);
    if e.Send? && exists i :: 0 <= i < |players| && players[i].link == e.to {
      var i :| 0 <= i < |players| && players[i].link == e.to;
      assert Links(players)[i] == e.to;
    }
  }

  /** With keys unique, looking up an entry's key finds that entry. */
  lemma FindUnique<T, K>(s: seq<T>, key: T -> K, k: nat)
    requires UniqueKeys(s, key) && k < |s|
    ensures FindIndex(s, key, key(s[k])) == k
    ensures Find(s, key, key(s[k])) == Some(s[k])
  {
    var i := FindIndex(s, key, key(s[k]));
    assert i <= k;
  }

  // ---- Uniqueness of keys

  lemma AddIfAbsentKeepsUnique<T, K>(s: seq<T>, e: T, key: T -> K)
    requires UniqueKeys(s, key)
    ensures UniqueKeys(AddIfAbsent(s, e, key), key)
  {
    var r := AddIfAbsent(s, e, key);
    if !HasKey(s, key, key(e)) {
      forall i, j | 0 <= i < j < |r| ensures key(r[i]) != key(r[j]) {
        if j == |s| {
          assert r[i] == s[i];
        }
      }
    }
  }

  /** Filtering never changes what the other entries are, nor their order. */
  lemma {:induction false} RemoveKeyConcat<T, K>(a: seq<T>, b: seq<T>, k: K, key: T -> K)
    ensures RemoveKey(a + b, k, key) == RemoveKey(a, k, key) + RemoveKey(b, k, key)
    decreases |a|
  {
    if a == [] {
      assert a + b == b;
    } else {
      assert (a + b)[1..] == a[1..] + b;
      RemoveKeyConcat(a[1..], b, k, key);
    }
  }

  /** Removing a key nobody holds leaves the list as it was. */
  lemma {:induction false} RemoveKeyAbsent<T, K>(s: seq<T>, k: K, key: T -> K)
    requires !HasKey(s, key, k)
    ensures RemoveKey(s, k, key) == s
    decreases |s|
  {
    if s != [] {
      assert !HasKey(s[1..], key, k) by {
        forall i | 0 <= i < |s[1..]| ensures key(s[1..][i]) != k {
          assert s[1..][i] == s[i + 1];
        }
      }
      RemoveKeyAbsent(s[1..], k, key);
    }
  }

  lemma {:induction false} RemoveKeyIsSubsequence<T, K>(s: seq<T>, k: K, key: T -> K)
    ensures IsSubsequence(RemoveKey(s, k, key), s)
    decreases |s|
  {
    if s != [] {
      RemoveKeyIsSubsequence(s[1..], k, key);
      if key(s[0]) == k {
        assert RemoveKey(s, k, key) == RemoveKey(s[1..], k, key);
        SubsequenceOfLonger(RemoveKey(s[1..], k, key), [s[0]], s[1..]);
        assert [s[0]] + s[1..] == s;
      } else {
        var r := RemoveKey(s, k, key);
        assert r[0] == s[0] && r[1..] == RemoveKey(s[1..], k, key);
      }
    }
  }

  lemma RemoveKeyKeepsUnique<T, K>(s: seq<T>, k: K, key: T -> K)
    requires UniqueKeys(s, key)
    ensures UniqueKeys(RemoveKey(s, k, key), key)
  {
    RemoveKeyIsSubsequence(s, k, key);
    SubsequenceKeepsUnique(RemoveKey(s, k, key), s, key);
  }

  // ---- Keys commute with the updaters (used for the desktop page's two parallel lists)

  lemma HasKeyOfKeys<T, K>(s: seq<T>, key: T -> K, k: K)
    ensures HasKey(Keys(s, key), Itself, k) <==> HasKey(s, key, k)
  {
    var ks := Keys(s, key);
    if HasKey(s, key, k) {
      var i :| 0 <= i < |s| && key(s[i]) == k;
      assert Itself(ks[i]) == k;
    }
  }

  lemma KeysOfAddIfAbsent<T, K>(s: seq<T>, e: T, key: T -> K)
    ensures Keys(AddIfAbsent(s, e, key), key) == AddIfAbsent(Keys(s, key), key(e), Itself)
  {
    HasKeyOfKeys(s, key, key(e));
    var lhs := Keys(AddIfAbsent(s, e, key), key);
    var rhs := AddIfAbsent(Keys(s, key), key(e), Itself);
    assert |lhs| == |rhs|;
    forall i | 0 <= i < |lhs| ensures lhs[i] == rhs[i] {
      if i == |s| {
        assert rhs[i] == key(e);
      }
    }
  }

  lemma {:induction false} KeysOfRemoveKey<T, K>(s: seq<T>, k: K, key: T -> K)
    ensures Keys(RemoveKey(s, k, key), key) == RemoveKey(Keys(s, key), k, Itself)
    decreases |s|
  {
    if s != [] {
      KeysOfRemoveKey(s[1..], k, key);
      var head: seq<T> := if key(s[0]) == k then [] else [s[0]];
      KeysOfConcat(head, RemoveKey(s[1..], k, key), key);
      assert Keys(s, key)[1..] == Keys(s[1..], key);
    }
  }

  lemma KeysOfConcat<T, K>(a: seq<T>, b: seq<T>, key: T -> K)
    ensures Keys(a + b, key) == Keys(a, key) + Keys(b, key)
  {}

  // ---- Subsequences

  /** `a` is `b` with some entries left out and the rest in the same order. */
  predicate IsSubsequence<T(==)>(a: seq<T>, b: seq<T>)
    decreases |b|
  {
    if a == [] then true
    else if b == [] then false
    else if a[0] == b[0] then IsSubsequence(a[1..], b[1..])
    else IsSubsequence(a, b[1..])
  }

  lemma {:induction false} SubsequenceReflexive<T>(a: seq<T>)
    ensures IsSubsequence(a, a)
    decreases |a|
  {
    if a != [] { SubsequenceReflexive(a[1..]); }
  }

  /** Dropping the head of the shorter list keeps it a subsequence. */
  lemma {:induction false} SubsequenceTail<T>(a: seq<T>, b: seq<T>)
    requires a != [] && IsSubsequence(a, b)
    ensures IsSubsequence(a[1..], b)
    decreases |b|
  {
    if a[0] != b[0] {
      SubsequenceTail(a, b[1..]);
    }
    // now a[1..] is a subsequence of b[1..]
    if a[1..] != [] && a[1] == b[0] {
      SubsequenceTail(a[1..], b[1..]);
      assert a[1..][1..] == a[2..];
    }
  }

  /** Prepending entries to the longer list keeps a subsequence. */
  lemma {:induction false} SubsequenceOfLonger<T>(a: seq<T>, p: seq<T>, b: seq<T>)
    requires IsSubsequence(a, b)
    ensures IsSubsequence(a, p + b)
    decreases |p|
  {
    if a != [] && p != [] {
      assert (p + b)[1..] == p[1..] + b;
      SubsequenceOfLonger(a, p[1..], b);
      if a[0] == p[0] {
        SubsequenceTail(a, p[1..] + b);
      }
    } else if p == [] {
      assert p + b == b;
    }
  }

  /** Subsequences of two lists concatenate. */
  lemma {:induction false} SubsequenceConcat<T>(a: seq<T>, b: seq<T>, c: seq<T>, d: seq<T>)
    requires IsSubsequence(a, b) && IsSubsequence(c, d)
    ensures IsSubsequence(a + c, b + d)
    decreases |b|
  {
    if a == [] {
      assert a + c == c;
      SubsequenceOfLonger(c, b, d);
    } else {
      assert (a + c)[0] == a[0] && (a + c)[1..] == a[1..] + c;
      assert (b + d)[0] == b[0] && (b + d)[1..] == b[1..] + d;
      if a[0] == b[0] {
        SubsequenceConcat(a[1..], b[1..], c, d);
      } else {
        SubsequenceConcat(a, b[1..], c, d);
      }
    }
  }

  lemma {:induction false} SubsequenceTransitive<T>(a: seq<T>, b: seq<T>, c: seq<T>)
    requires IsSubsequence(a, b) && IsSubsequence(b, c)
    ensures IsSubsequence(a, c)
    decreases |c|
  {
    if a != [] && b != [] && c != [] {
      if b[0] == c[0] {
        if a[0] == b[0] {
          SubsequenceTransitive(a[1..], b[1..], c[1..]);
        } else {
          SubsequenceTransitive(a, b[1..], c[1..]);
        }
      } else {
        SubsequenceTransitive(a, b, c[1..]);
        if a[0] == c[0] {
          SubsequenceTail(a, c[1..]);
        }
      }
    }
  }

  lemma {:induction false} SubsequenceMembers<T>(a: seq<T>, b: seq<T>)
    requires IsSubsequence(a, b)
    ensures |a| <= |b|
    ensures forall x :: x in a ==> x in b
    decreases |b|
  {
    if a != [] && b != [] {
      if a[0] == b[0] {
        SubsequenceMembers(a[1..], b[1..]);
        assert forall x :: x in a ==> x == a[0] || x in a[1..];
      } else {
        SubsequenceMembers(a, b[1..]);
      }
    }
  }

  lemma {:induction false} SubsequenceKeepsUnique<T, K>(a: seq<T>, b: seq<T>, key: T -> K)
    requires IsSubsequence(a, b) && UniqueKeys(b, key)
    ensures UniqueKeys(a, key)
    decreases |b|
  {
    if a != [] && b != [] {
      assert UniqueKeys(b[1..], key) by {
        forall i, j | 0 <= i < j < |b[1..]| ensures key(b[1..][i]) != key(b[1..][j]) {
          assert b[1..][i] == b[i + 1] && b[1..][j] == b[j + 1];
        }
      }
      if a[0] == b[0] {
        SubsequenceKeepsUnique(a[1..], b[1..], key);
        SubsequenceMembers(a[1..], b[1..]);
        forall j | 0 < j < |a| ensures key(a[0]) != key(a[j]) {
          assert a[j] == a[1..][j - 1];
          assert a[j] in a[1..];
          assert a[j] in b[1..];
          var m :| 0 <= m < |b[1..]| && b[1..][m] == a[j];
          assert b[m + 1] == a[j];
        }
      } else {
        SubsequenceKeepsUnique(a, b[1..], key);
      }
    }
  }

  // ---- Any sequence of joins and departures

  datatype Change<T, K> = Add(item: T) | Remove(key: K)

  function Apply<T(==), K(==)>(s: seq<T>, c: Change<T, K>, key: T -> K): seq<T>
  {
    match c
    case Add(e) => AddIfAbsent(s, e, key)
    case Remove(k) => RemoveKey(s, k, key)
  }

  function Replay<T(==), K(==)>(s: seq<T>, cs: seq<Change<T, K>>, key: T -> K): seq<T>
    decreases |cs|
  {
    if cs == [] then s else Replay(Apply(s, cs[0], key), cs[1..], key)
  }

  /** The entries the changes offered to add, in the order they were offered. */
  function Offered<T, K>(cs: seq<Change<T, K>>): seq<T>
    decreases |cs|
  {
    if cs == [] then []
    else (if cs[0].Add? then [cs[0].item] else []) + Offered(cs[1..])
  }

  /** Keys stay unique across any sequence of joins and departures. */
  lemma {:induction false} ReplayKeepsUnique<T, K>(s: seq<T>, cs: seq<Change<T, K>>, key: T -> K)
    requires UniqueKeys(s, key)
    ensures UniqueKeys(Replay(s, cs, key), key)
    decreases |cs|
  {
    if cs != [] {
      match cs[0] {
        case Add(e) => AddIfAbsentKeepsUnique(s, e, key);
        case Remove(k) => RemoveKeyKeepsUnique(s, k, key);
      }
      ReplayKeepsUnique(Apply(s, cs[0], key), cs[1..], key);
    }
  }

  /** One change keeps order: the list after it, followed by any later entries, is a
      subsequence of the list before it, followed by what it offered and those entries. */
  lemma StepKeepsOrder<T, K>(s: seq<T>, c: Change<T, K>, rest: seq<T>, key: T -> K)
    ensures IsSubsequence(Apply(s, c, key) + rest, s + ((if c.Add? then [c.item] else []) + rest))
  {
    SubsequenceReflexive(rest);
    match c {
      case Add(e) =>
        if HasKey(s, key, key(e)) {
          SubsequenceReflexive(s);
          SubsequenceOfLonger(rest, [e], rest);
          SubsequenceConcat(s, s, rest, [e] + rest);
        } else {
          assert s + [e] + rest == s + ([e] + rest);
          SubsequenceReflexive(s + ([e] + rest));
        }
      case Remove(k) =>
        RemoveKeyIsSubsequence(s, k, key);
        SubsequenceConcat(RemoveKey(s, k, key), s, rest, rest);
        assert [] + rest == rest;
    }
  }

  /** Insertion order is kept across any sequence of joins and departures: the final
      list is the initial list followed by the offered entries, with some left out. */
  lemma {:induction false} ReplayKeepsOrder<T, K>(s: seq<T>, cs: seq<Change<T, K>>, key: T -> K)
    ensures IsSubsequence(Replay(s, cs, key), s + Offered(cs))
    decreases |cs|
  {
    if cs == [] {
      assert s + Offered(cs) == s;
      SubsequenceReflexive(s);
    } else {
      var s1 := Apply(s, cs[0], key);
      var rest := Offered(cs[1..]);
      ReplayKeepsOrder(s1, cs[1..], key);
      StepKeepsOrder(s, cs[0], rest, key);
      SubsequenceTransitive(Replay(s1, cs[1..], key), s1 + rest, s + Offered(cs));
    }
  }
}
