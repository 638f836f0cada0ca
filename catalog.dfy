/**
 * The device catalog: the space-terminated list of headband names that is
 * sent to Unity, the name -> headband map that `connect` looks names up
 * in, and the Unity-side split that reads the list back.
 */
module Catalog {

  /** A headband as the SDK reports it: an opaque identity and a display name. */
  datatype Muse = Muse(id: nat, name: string)

  /** The names of the headbands, in order. */
  function Names(muses: seq<Muse>): (r: seq<string>)
    ensures |r| == |muses| && forall i :: 0 <= i < |muses| ==> r[i] == muses[i].name
  {
    if muses == [] then [] else Names(muses[..|muses| - 1]) + [muses[|muses| - 1].name]
  }

  /** Each name followed by one space, concatenated in list order. */
  function JoinNames(muses: seq<Muse>): string
  {
    if muses == [] then "" else JoinNames(muses[..|muses| - 1]) + muses[|muses| - 1].name + " "
  }

  /** The map after putting name -> headband for each headband in order; nothing is removed. */
  function PutAll(m: map<string, Muse>, muses: seq<Muse>): map<string, Muse>
  {
    if muses == [] then m else PutAll(m, muses[..|muses| - 1])[muses[|muses| - 1].name := muses[|muses| - 1]]
  }

  /**
   * Splitting on the space character, as the Unity side does with the
   * list: the pieces between spaces, with an empty piece after a trailing space.
   */
  function Split(s: string): (r: seq<string>)
    ensures |r| >= 1
  {
    if s == [] then [""]
    else if s[0] == ' ' then [""] + Split(s[1..])
    else var rest := Split(s[1..]); [[s[0]] + rest[0]] + rest[1..]
  }

  /** The joined list is empty exactly when there is no headband, and otherwise ends with a space. */
  lemma {:induction false} JoinNamesShape(muses: seq<Muse>)
    ensures JoinNames(muses) == "" <==> muses == []
    ensures muses != [] ==> JoinNames(muses)[|JoinNames(muses)| - 1] == ' '
    ensures |JoinNames(muses)| >= |muses|
  {
    if muses != [] {
      JoinNamesShape(muses[..|muses| - 1]);
    }
  }

  lemma {:induction false} SplitAtSpace(x: string, y: string)
    ensures Split(x + " " + y) == Split(x) + Split(y)
  {
    if x == [] {
      assert x + " " + y == [' '] + y;
      assert ([' '] + y)[1..] == y;
    } else {
      assert (x + " " + y)[0] == x[0];
      assert (x + " " + y)[1..] == x[1..] + " " + y;
      SplitAtSpace(x[1..], y);
    }
  }

  lemma {:induction false} SplitWithoutSpace(x: string)
    requires ' ' !in x
    ensures Split(x) == [x]
  {
    if x != [] {
      assert ' ' !in x[1..] by {
        forall k | 0 <= k < |x[1..]| ensures x[1..][k] != ' ' {
          assert x[1..][k] == x[k + 1];
        }
      }
      SplitWithoutSpace(x[1..]);
      assert [x[0]] + x[1..] == x;
    }
  }

  /**
   * Reading the list back: when no name holds a space, splitting the
   * joined list gives the names in order, followed by one empty piece for
   * the trailing space.
   */
  lemma {:induction false} SplitJoinNames(muses: seq<Muse>, suffix: string)
    requires forall i :: 0 <= i < |muses| ==> ' ' !in muses[i].name
    ensures Split(JoinNames(muses) + suffix) == Names(muses) + Split(suffix)
  {
    if muses != [] {
      var init, last := muses[..|muses| - 1], muses[|muses| - 1];
      assert JoinNames(muses) + suffix == JoinNames(init) + (last.name + " " + suffix);
      SplitJoinNames(init, last.name + " " + suffix);
      SplitAtSpace(last.name, suffix);
      SplitWithoutSpace(last.name);
      calc {
        Split(JoinNames(muses) + suffix);
        Names(init) + Split(last.name + " " + suffix);
        Names(init) + ([last.name] + Split(suffix));
        (Names(init) + [last.name]) + Split(suffix);
        Names(muses) + Split(suffix);
      }
    } else {
      assert JoinNames(muses) + suffix == suffix;
    }
  }

  /** The payload for the list, split back into pieces: the names, then the empty piece. */
  lemma JoinNamesRoundTrip(muses: seq<Muse>)
    requires forall i :: 0 <= i < |muses| ==> ' ' !in muses[i].name
    ensures Split(JoinNames(muses)) == Names(muses) + [""]
  {
    SplitJoinNames(muses, "");
    assert JoinNames(muses) + "" == JoinNames(muses);
  }

  /** The set of names in the list. */
  ghost function NameSet(muses: seq<Muse>): set<string>
  {
    set i | 0 <= i < |muses| :: muses[i].name
  }

  /** Position i holds the last headband of the list with its name. */
  ghost predicate LastOfName(muses: seq<Muse>, i: int)
    requires 0 <= i < |muses|
  {
    forall j :: i < j < |muses| ==> muses[j].name != muses[i].name
  }

  /** The puts add exactly the listed names as keys and keep every earlier key. */
  lemma {:induction false} PutAllKeys(m: map<string, Muse>, muses: seq<Muse>)
    ensures PutAll(m, muses).Keys == m.Keys + NameSet(muses)
  {
    if muses != [] {
      var init, last := muses[..|muses| - 1], muses[|muses| - 1];
      PutAllKeys(m, init);
      forall s | s in NameSet(muses) ensures s in NameSet(init) + {last.name} {
        var i :| 0 <= i < |muses| && muses[i].name == s;
        if i < |init| { assert init[i] == muses[i]; }
      }
      forall s | s in NameSet(init) ensures s in NameSet(muses) {
        var i :| 0 <= i < |init| && init[i].name == s;
        assert muses[i] == init[i];
      }
    }
  }

  /** After the puts each listed name maps to the LAST headband of the list with that name. */
  lemma {:induction false} PutAllLastWins(m: map<string, Muse>, muses: seq<Muse>)
    ensures forall i :: 0 <= i < |muses| && LastOfName(muses, i) ==>
      muses[i].name in PutAll(m, muses) && PutAll(m, muses)[muses[i].name] == muses[i]
  {
    if muses != [] {
      var init := muses[..|muses| - 1];
      PutAllLastWins(m, init);
      forall i | 0 <= i < |muses| && LastOfName(muses, i)
        ensures muses[i].name in PutAll(m, muses) && PutAll(m, muses)[muses[i].name] == muses[i]
      {
        if i < |init| {
          assert init[i] == muses[i];
          forall j | i < j < |init| ensures init[j].name != init[i].name {
            assert init[j] == muses[j];
          }
          assert LastOfName(init, i);
        }
      }
    }
  }

  /** A key whose name is not listed keeps its earlier headband: the map is never cleared. */
  lemma {:induction false} PutAllKeepsOthers(m: map<string, Muse>, muses: seq<Muse>, n: string)
    requires n in m && n !in NameSet(muses)
    ensures n in PutAll(m, muses) && PutAll(m, muses)[n] == m[n]
  {
    if muses != [] {
      var init := muses[..|muses| - 1];
      assert n !in NameSet(init) by {
        forall i | 0 <= i < |init| ensures init[i].name != n {
          assert init[i] == muses[i];
        }
      }
      PutAllKeepsOthers(m, init, n);
    }
  }

  /** With unique names, every listed name resolves to its own headband. */
  lemma PutAllResolvesEachName(m: map<string, Muse>, muses: seq<Muse>)
    requires forall i, j :: 0 <= i < j < |muses| ==> muses[i].name != muses[j].name
    ensures forall i :: 0 <= i < |muses| ==> muses[i].name in PutAll(m, muses) && PutAll(m, muses)[muses[i].name] == muses[i]
  {
    PutAllLastWins(m, muses);
  }

  /** One headband named MuseHeadband-1234 is announced as "MuseHeadband-1234 ", trailing space included. */
  lemma SingleHeadbandPayload(m: Muse)
    requires m.name == "MuseHeadband-1234"
    ensures JoinNames([m]) == "MuseHeadband-1234 "
  {
    assert [m][..0] == [];
  }

  /**
   * A later scan that lists only another headband does not forget the
   * earlier ones: they still resolve to their headbands.
   */
  lemma EarlierScanStillResolves(a: Muse, b: Muse, c: Muse)
    requires a.name != b.name && a.name != c.name && b.name != c.name
    ensures var m := PutAll(PutAll(map[], [a, b]), [c]);
      a.name in m && m[a.name] == a && b.name in m && m[b.name] == b && c.name in m && m[c.name] == c
  {
    var first := PutAll(map[], [a, b]);
    PutAllResolvesEachName(map[], [a, b]);
    assert [a, b][0] == a && [a, b][1] == b;
    PutAllResolvesEachName(first, [c]);
    assert [c][0] == c;
    assert a.name !in NameSet([c]) && b.name !in NameSet([c]);
    PutAllKeepsOthers(first, [c], a.name);
    PutAllKeepsOthers(first, [c], b.name);
  }
}
