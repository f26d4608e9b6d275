/** The query-string convention shared by every client: a parameter dict, in insertion
    order, becomes `key=value` pieces joined by `&`, skipping every value that is `None`.
    Nothing is percent-encoded. */
module Query {
  import opened Wrappers
  import Text

  /** One dict entry: a parameter name and its value, already rendered by `str()`,
      or `None`. */
  type Entry = (string, Option<string>)

  /** A Python dict, as the sequence of its entries in insertion order. */
  type Bag = seq<Entry>

  /** The list comprehension of `args_gen`: `f"{key}={value}"` for every entry
      whose value is not `None`, in enumeration order. */
  function Pieces(items: Bag): (r: seq<string>)
    ensures |r| == |Present(items)| <= |items|
  {
    if items == [] then []
    else if items[0].1.None? then Pieces(items[1..])
    else [items[0].0 + "=" + items[0].1.value] + Pieces(items[1..])
  }

  /** `args_gen`: the pieces joined by `&`. It is empty exactly when every value is `None`. */
  function ArgsGen(items: Bag): (r: string)
    ensures r == "" <==> Present(items) == []
  {
    PiecesRender(items);
    Text.Join(Pieces(items), '&')
  }

  /** The pairs a query should carry: the entries whose value is present, in order. */
  function Present(items: Bag): seq<(string, string)>
  {
    if items == [] then []
    else
      match items[0].1
      case None => Present(items[1..])
      case Some(v) => [(items[0].0, v)] + Present(items[1..])
  }

  /** The `key=value` text of each pair. */
  function Render(pairs: seq<(string, string)>): (r: seq<string>)
  {
    seq(|pairs|, i requires 0 <= i < |pairs| => pairs[i].0 + "=" + pairs[i].1)
  }

  /** Reads a query string back: cut at every `&`, then each piece at its first `=`. */
  function Parse(query: string): seq<(string, string)>
  {
    if query == "" then []
    else
      var pieces := Text.Split(query, '&');
      seq(|pieces|, i requires 0 <= i < |pieces| => ParsePair(pieces[i]))
  }

  /** A piece `key=value`, cut at its first `=`; a piece without `=` is all key. */
  function ParsePair(piece: string): (string, string)
  {
    match Text.CutAt(piece, '=')
    case None => (piece, "")
    case Some(kv) => kv
  }

  /** An entry whose text can be read back from a query: no `&` or `=` in the name,
      no `&` in the value. */
  predicate EntryWellFormed(e: Entry)
  {
    '&' !in e.0 && '=' !in e.0 && (e.1.Some? ==> '&' !in e.1.value)
  }

  predicate WellFormed(items: Bag)
  {
    forall i :: 0 <= i < |items| ==> EntryWellFormed(items[i])
  }

  /** The comprehension emits exactly the rendered present pairs. */
  lemma {:induction false} PiecesRender(items: Bag)
    ensures Pieces(items) == Render(Present(items))
  {
    if items != [] {
      PiecesRender(items[1..]);
      var rest := Present(items[1..]);
      if items[0].1.Some? {
        var p := (items[0].0, items[0].1.value);
        assert Present(items) == [p] + rest;
        assert Render([p] + rest) == [p.0 + "=" + p.1] + Render(rest);
      }
    }
  }

  /** A pair is carried exactly when some entry holds that name with that present value. */
  lemma {:induction false} PresentMember(items: Bag, k: string, v: string)
    ensures (k, v) in Present(items) <==> exists i :: 0 <= i < |items| && items[i] == (k, Some(v))
  {
    if items != [] {
      PresentMember(items[1..], k, v);
      if exists i :: 0 <= i < |items[1..]| && items[1..][i] == (k, Some(v)) {
        var i :| 0 <= i < |items[1..]| && items[1..][i] == (k, Some(v));
        assert items[i + 1] == (k, Some(v));
      }
      if exists i :: 0 <= i < |items| && items[i] == (k, Some(v)) {
        var i :| 0 <= i < |items| && items[i] == (k, Some(v));
        if i > 0 {
          assert items[1..][i - 1] == (k, Some(v));
        }
      }
    }
  }

  /** Filtering keeps order: the pairs of a concatenation are the pairs of each part, in turn. */
  lemma {:induction false} PresentAppend(a: Bag, b: Bag)
    ensures Present(a + b) == Present(a) + Present(b)
  {
    if a != [] {
      assert (a + b)[0] == a[0] && (a + b)[1..] == a[1..] + b;
      PresentAppend(a[1..], b);
      if a[0].1.Some? {
        var p := (a[0].0, a[0].1.value);
        assert [p] + (Present(a[1..]) + Present(b)) == ([p] + Present(a[1..])) + Present(b);
      }
    } else {
      assert a + b == b;
    }
  }

  /** Pairs drawn from a well-formed dict can be read back. */
  lemma PresentWellFormed(items: Bag)
    requires WellFormed(items)
    ensures forall j :: 0 <= j < |Present(items)| ==>
      '&' !in Present(items)[j].0 && '=' !in Present(items)[j].0 && '&' !in Present(items)[j].1
  {
    forall j | 0 <= j < |Present(items)|
      ensures '&' !in Present(items)[j].0 && '=' !in Present(items)[j].0 && '&' !in Present(items)[j].1
    {
      var (k, v) := Present(items)[j];
      PresentMember(items, k, v);
      var i :| 0 <= i < |items| && items[i] == (k, Some(v));
      assert EntryWellFormed(items[i]);
    }
  }

  /** Reading back the query `args_gen` writes yields exactly the present pairs, in order. */
  lemma ParseArgsGen(items: Bag)
    requires WellFormed(items)
    ensures Parse(ArgsGen(items)) == Present(items)
  {
    var ps := Present(items);
    if ps != [] {
      PiecesRender(items);
      PresentWellFormed(items);
      var pieces := Pieces(items);
      forall i | 0 <= i < |pieces| ensures '&' !in pieces[i] {
        assert pieces[i] == ps[i].0 + "=" + ps[i].1;
      }
      Text.SplitJoin(pieces, '&');
      forall i | 0 <= i < |ps| ensures ParsePair(pieces[i]) == ps[i] {
        assert pieces[i] == ps[i].0 + ['='] + ps[i].1;
        Text.CutAtFirst(ps[i].0, ps[i].1, '=');
      }
    }
  }

  /** n present pairs are separated by n - 1 ampersands. */
  lemma ArgsGenSeparators(items: Bag)
    requires WellFormed(items)
    ensures Text.Count(ArgsGen(items), '&') == if Present(items) == [] then 0 else |Present(items)| - 1
  {
    var ps := Present(items);
    if ps != [] {
      PiecesRender(items);
      PresentWellFormed(items);
      var pieces := Pieces(items);
      forall i | 0 <= i < |pieces| ensures '&' !in pieces[i] {
        assert pieces[i] == ps[i].0 + "=" + ps[i].1;
      }
      Text.JoinSeparators(pieces, '&');
    }
  }

  /** The comprehension walked by position, from entry `i` on. */
  function PiecesAt(items: Bag, i: nat): seq<string>
    requires i <= |items|
    decreases |items| - i
  {
    if i == |items| then []
    else if items[i].1.None? then PiecesAt(items, i + 1)
    else [items[i].0 + "=" + items[i].1.value] + PiecesAt(items, i + 1)
  }

  /** Walking by position from `i` emits the pieces of the suffix that starts at `i`. */
  lemma {:induction false} PiecesAtSuffix(items: Bag, i: nat)
    requires i <= |items|
    ensures PiecesAt(items, i) == Pieces(items[i..])
    decreases |items| - i
  {
    if i < |items| {
      PiecesAtSuffix(items, i + 1);
      assert items[i..][0] == items[i] && items[i..][1..] == items[i + 1..];
    }
  }

  /** A present first entry leads the query; an absent one is skipped. */
  lemma ArgsGenCons(key: string, value: Option<string>, rest: Bag)
    ensures ArgsGen([(key, value)] + rest) ==
      if value.None? then ArgsGen(rest)
      else if Present(rest) == [] then key + "=" + value.value
      else key + "=" + value.value + "&" + ArgsGen(rest)
  {
    var items := [(key, value)] + rest;
    assert items[0] == (key, value) && items[1..] == rest;
    PiecesRender(rest);
    if value.Some? {
      var p := key + "=" + value.value;
      assert Pieces(items) == [p] + Pieces(rest);
      assert ([p] + Pieces(rest))[1..] == Pieces(rest);
    }
  }

  /** An entry whose value is `None` contributes nothing, wherever it stands. */
  lemma ArgsGenSkipsNone(a: Bag, key: string, b: Bag)
    ensures ArgsGen(a + [(key, None)] + b) == ArgsGen(a + b)
  {
    PresentAppend(a + [(key, None)], b);
    PresentAppend(a, [(key, None)]);
    PresentAppend(a, b);
    var none: Bag := [(key, None)];
    assert Present(none) == [] by {
      assert none[1..] == [];
    }
    assert Present(a) + [] == Present(a);
    PiecesRender(a + [(key, None)] + b);
    PiecesRender(a + b);
  }

  // Dict operations

  /** The names of a dict, in order. */
  function Keys(items: Bag): seq<string>
  {
    if items == [] then [] else [items[0].0] + Keys(items[1..])
  }

  /** A Python dict holds each name once. */
  predicate UniqueKeys(items: Bag)
  {
    forall i, j :: 0 <= i < j < |items| ==> items[i].0 != items[j].0
  }

  /** `d[key] = value`: an existing name keeps its place and takes the new value;
      a new name goes last. */
  function Assign(items: Bag, key: string, value: Option<string>): (r: Bag)
    ensures Keys(r) == if key in Keys(items) then Keys(items) else Keys(items) + [key]
    ensures (key, value) in r
    ensures |r| >= |items|
    ensures forall i :: 0 <= i < |items| && items[i].0 != key ==> r[i] == items[i]
  {
    if items == [] then [(key, value)]
    else if items[0].0 == key then [(key, value)] + items[1..]
    else
      var rest := Assign(items[1..], key, value);
      assert Keys(items) == [items[0].0] + Keys(items[1..]);
      assert ([items[0].0] + Keys(items[1..])) + [key] == [items[0].0] + (Keys(items[1..]) + [key]);
      [items[0]] + rest
  }

  /** The dict with every entry named `key` removed. */
  function Without(items: Bag, key: string): (r: Bag)
    ensures key !in Keys(r)
  {
    if items == [] then []
    else if items[0].0 == key then Without(items[1..], key)
    else [items[0]] + Without(items[1..], key)
  }

  lemma {:induction false} WithoutAbsent(items: Bag, key: string)
    requires key !in Keys(items)
    ensures Without(items, key) == items
  {
    if items != [] {
      WithoutAbsent(items[1..], key);
    }
  }

  /** Writing `None` under a name a dict already holds drops that name from the query
      and leaves every other pair where it was. */
  lemma {:induction false} AssignNone(items: Bag, key: string)
    requires UniqueKeys(items)
    ensures Present(Assign(items, key, None)) == Present(Without(items, key))
    ensures ArgsGen(Assign(items, key, None)) == ArgsGen(Without(items, key))
  {
    if items != [] {
      var rest := items[1..];
      assert UniqueKeys(rest) by {
        forall i, j | 0 <= i < j < |rest| ensures rest[i].0 != rest[j].0 {
          assert rest[i] == items[i + 1] && rest[j] == items[j + 1];
        }
      }
      if items[0].0 == key {
        assert key !in Keys(rest) by {
          forall i | 0 <= i < |rest| ensures rest[i].0 != key {
            assert rest[i] == items[i + 1];
          }
          KeysAt(rest, key);
        }
        WithoutAbsent(rest, key);
        assert Assign(items, key, None)[1..] == rest;
      } else {
        AssignNone(rest, key);
        assert Assign(items, key, None)[1..] == Assign(rest, key, None);
        assert Without(items, key)[1..] == Without(rest, key);
      }
    }
    PiecesRender(Assign(items, key, None));
    PiecesRender(Without(items, key));
  }

  /** A name is among the keys exactly when some entry bears it. */
  lemma {:induction false} KeysAt(items: Bag, key: string)
    ensures key in Keys(items) <==> exists i :: 0 <= i < |items| && items[i].0 == key
  {
    if items != [] {
      KeysAt(items[1..], key);
      if exists i :: 0 <= i < |items[1..]| && items[1..][i].0 == key {
        var i :| 0 <= i < |items[1..]| && items[1..][i].0 == key;
        assert items[i + 1].0 == key;
      }
      if exists i :: 0 <= i < |items| && items[i].0 == key {
        var i :| 0 <= i < |items| && items[i].0 == key;
        if i > 0 {
          assert items[1..][i - 1].0 == key;
        }
      }
    }
  }

  /** Removing a name keeps exactly the other pairs. */
  lemma {:induction false} WithoutPresent(items: Bag, key: string, k: string, v: string)
    ensures (k, v) in Present(Without(items, key)) <==> k != key && (k, v) in Present(items)
  {
    if items != [] {
      WithoutPresent(items[1..], key, k, v);
    }
  }
}
