/**
 * The `tw` class-name prefixer: split the class string on single spaces, drop the
 * empty pieces, prefix every class with "report-" unless it already has it, and
 * join with single spaces. The input is the already-interpolated template string.
 */
module Tailwind {
  import opened Sums

  const ClassPrefix: string := "report-"

  /** `s.split(' ')`: the pieces between spaces, empty ones included; never an empty list. */
  function Split(s: string): (pieces: seq<string>)
    ensures |pieces| >= 1
    ensures forall p :: p in pieces ==> ' ' !in p
  {
    if s == [] then [""]
    else
      var rest := Split(s[1..]);
      if s[0] == ' ' then [""] + rest
      else [[s[0]] + rest[0]] + rest[1..]
  }

  function Length(t: string): int { |t| }

  /** `pieces.join(' ')`: the pieces in order with one space between neighbours. */
  function Join(pieces: seq<string>): (r: string)
    ensures pieces == [] ==> r == ""
    ensures |pieces| > 0 ==> pieces[0] <= r
    ensures |pieces| > 0 ==> |r| == SumBy(pieces, Length) + |pieces| - 1
  {
    if |pieces| == 0 then ""
    else if |pieces| == 1 then pieces[0]
    else pieces[0] + " " + Join(pieces[1..])
  }

  /** `.filter(Boolean)`: drops the empty strings. */
  function NonEmpty(pieces: seq<string>): (r: seq<string>)
    ensures forall t :: t in r <==> t in pieces && t != ""
  {
    if pieces == [] then []
    else (if pieces[0] == "" then [] else [pieces[0]]) + NonEmpty(pieces[1..])
  }

  /** A one-piece list keeps its piece exactly when the piece is not empty. */
  lemma NonEmptySingle(p: string)
    ensures NonEmpty([p]) == if p == "" then [] else [p]
  {
    assert [p][1..] == [];
  }

  /** The filter keeps order: filtering a concatenation concatenates the filtered parts. */
  lemma {:induction false} NonEmptyConcat(a: seq<string>, b: seq<string>)
    ensures NonEmpty(a + b) == NonEmpty(a) + NonEmpty(b)
  {
    if a == [] {
      assert a + b == b;
    } else {
      assert (a + b)[0] == a[0];
      assert (a + b)[1..] == a[1..] + b;
      NonEmptyConcat(a[1..], b);
    }
  }

  /** The classes named by a class string: its non-empty space-separated pieces. */
  function Tokens(s: string): (r: seq<string>)
    ensures forall t :: t in r ==> t != "" && ' ' !in t
  {
    NonEmpty(Split(s))
  }

  /** The `.map` callback: the class, prefixed unless it already starts with the prefix. */
  function Prefixed(cls: string): (r: string)
    ensures ClassPrefix <= r
    ensures |cls| <= |r| && r[|r| - |cls|..] == cls
  {
    if ClassPrefix <= cls then cls
    else
      assert (ClassPrefix + cls)[|ClassPrefix|..] == cls;
      ClassPrefix + cls
  }

  function PrefixAll(classes: seq<string>): (r: seq<string>)
    ensures |r| == |classes|
    ensures forall i :: 0 <= i < |classes| ==> r[i] == Prefixed(classes[i])
  {
    if classes == [] then [] else [Prefixed(classes[0])] + PrefixAll(classes[1..])
  }

  /** `tw` on the interpolated string: empty exactly when there is no class, else starting with the prefix. */
  function Tw(s: string): (r: string)
    ensures r == "" <==> Tokens(s) == []
    ensures r != "" ==> ClassPrefix <= r
  {
    var classes := PrefixAll(Tokens(s));
    assert classes != [] ==> ClassPrefix <= classes[0] && classes[0] <= Join(classes);
    Join(classes)
  }

  /** A list of classes that joins and splits back cleanly. */
  ghost predicate WellFormed(classes: seq<string>)
  {
    forall t :: t in classes ==> t != "" && ' ' !in t
  }

  // ---------------------------------------------------------------- splitting and joining

  /** One step of the split: a space closes the current piece, any other character extends it. */
  lemma SplitStep(c: char, rest: string)
    ensures c == ' ' ==> Split([c] + rest) == [""] + Split(rest)
    ensures c != ' ' ==> Split([c] + rest) == [[c] + Split(rest)[0]] + Split(rest)[1..]
  {
    assert ([c] + rest)[1..] == rest;
  }

  lemma {:induction false} SplitSpaceFree(t: string)
    requires ' ' !in t
    ensures Split(t) == [t]
  {
    if t != [] {
      SplitSpaceFree(t[1..]);
      assert [t[0]] + t[1..] == t;
    }
  }

  lemma {:induction false} SplitCons(t: string, rest: string)
    requires ' ' !in t
    ensures Split(t + " " + rest) == [t] + Split(rest)
  {
    if t == [] {
      assert t + " " + rest == " " + rest;
      assert (" " + rest)[1..] == rest;
    } else {
      assert (t + " " + rest)[1..] == t[1..] + " " + rest;
      SplitCons(t[1..], rest);
      assert [t[0]] + t[1..] == t;
    }
  }

  /** Joining then splitting gives the pieces back, when none of them holds a space. */
  lemma {:induction false} SplitJoin(pieces: seq<string>)
    requires |pieces| >= 1
    requires forall p :: p in pieces ==> ' ' !in p
    ensures Split(Join(pieces)) == pieces
  {
    if |pieces| == 1 {
      SplitSpaceFree(pieces[0]);
    } else {
      SplitJoin(pieces[1..]);
      SplitCons(pieces[0], Join(pieces[1..]));
    }
  }

  /** Splitting then joining gives the string back. */
  lemma {:induction false} JoinSplit(s: string)
    ensures Join(Split(s)) == s
  {
    if s != [] {
      JoinSplit(s[1..]);
      var rest := Split(s[1..]);
      if s[0] == ' ' {
        assert ([""] + rest)[1..] == rest;
      } else {
        if |rest| > 1 {
          assert ([[s[0]] + rest[0]] + rest[1..])[1..] == rest[1..];
          assert Join(rest) == rest[0] + " " + Join(rest[1..]);
        }
        assert s == [s[0]] + s[1..];
      }
    }
  }

  /** A string names no class exactly when it is all spaces. */
  lemma {:induction false} TokensEmpty(s: string)
    ensures Tokens(s) == [] <==> forall i :: 0 <= i < |s| ==> s[i] == ' '
  {
    if s != [] {
      TokensEmpty(s[1..]);
      var rest := Split(s[1..]);
      if s[0] == ' ' {
        assert ([""] + rest)[1..] == rest;
      } else {
        assert Split(s)[0] != "";
      }
      assert forall i :: 1 <= i < |s| ==> s[i] == s[1..][i - 1];
    }
  }

  lemma {:induction false} NonEmptyWellFormed(pieces: seq<string>)
    requires WellFormed(pieces)
    ensures NonEmpty(pieces) == pieces
  {
    if pieces != [] {
      assert pieces[0] in pieces;
      assert forall t :: t in pieces[1..] ==> t in pieces;
      NonEmptyWellFormed(pieces[1..]);
      assert [pieces[0]] + pieces[1..] == pieces;
    }
  }

  lemma PrefixedWellFormed(cls: string)
    requires cls != "" && ' ' !in cls
    ensures Prefixed(cls) != "" && ' ' !in Prefixed(cls)
  {
    if !(ClassPrefix <= cls) {
      var p := ClassPrefix + cls;
      forall i | 0 <= i < |p| ensures p[i] != ' ' {
        if i >= |ClassPrefix| {
          assert p[i] == cls[i - |ClassPrefix|];
        }
      }
    }
  }

  lemma {:induction false} PrefixAllWellFormed(classes: seq<string>)
    requires WellFormed(classes)
    ensures WellFormed(PrefixAll(classes))
  {
    if classes != [] {
      var rest := classes[1..];
      assert forall t :: t in rest ==> t in classes;
      PrefixAllWellFormed(rest);
      assert classes[0] in classes;
      PrefixedWellFormed(classes[0]);
      var r := PrefixAll(classes);
      assert r == [Prefixed(classes[0])] + PrefixAll(rest);
      forall t | t in r ensures t != "" && ' ' !in t {
        if t != r[0] {
          assert t in PrefixAll(rest);
        }
      }
    }
  }

  /** The classes of a joined well-formed list are that list. */
  lemma TokensJoin(classes: seq<string>)
    requires WellFormed(classes)
    ensures Tokens(Join(classes)) == classes
  {
    if classes != [] {
      SplitJoin(classes);
      NonEmptyWellFormed(classes);
    }
  }

  // ---------------------------------------------------------------- properties of tw

  /** The classes of the output are, one for one and in order, the prefixed classes of the input. */
  lemma TwTokens(s: string)
    ensures Tokens(Tw(s)) == PrefixAll(Tokens(s))
    ensures |Tokens(Tw(s))| == |Tokens(s)|
  {
    PrefixAllWellFormed(Tokens(s));
    TokensJoin(PrefixAll(Tokens(s)));
  }

  /** Every output class starts with "report-". */
  lemma TwAllPrefixed(s: string)
    ensures forall t :: t in Tokens(Tw(s)) ==> ClassPrefix <= t
  {
    TwTokens(s);
  }

  /** A class that already starts with "report-" passes unchanged; any other gains the prefix. */
  lemma TwTokenwise(s: string, i: nat)
    requires i < |Tokens(s)|
    ensures |Tokens(Tw(s))| == |Tokens(s)|
    ensures ClassPrefix <= Tokens(s)[i] ==> Tokens(Tw(s))[i] == Tokens(s)[i]
    ensures !(ClassPrefix <= Tokens(s)[i]) ==> Tokens(Tw(s))[i] == ClassPrefix + Tokens(s)[i]
  {
    TwTokens(s);
  }

  /**
   * Runs of spaces and leading or trailing spaces disappear: every space-separated
   * piece of a non-empty output is a non-empty class.
   */
  lemma TwNoStraySpaces(s: string)
    ensures Tw(s) != "" ==> Split(Tw(s)) == PrefixAll(Tokens(s))
    ensures Tw(s) != "" ==> forall p :: p in Split(Tw(s)) ==> p != ""
  {
    PrefixAllWellFormed(Tokens(s));
    if Tokens(s) != [] {
      SplitJoin(PrefixAll(Tokens(s)));
    }
  }

  /** Empty or all-space input, and only that, yields the empty string. */
  lemma TwEmpty(s: string)
    ensures Tw(s) == "" <==> forall i :: 0 <= i < |s| ==> s[i] == ' '
  {
    TokensEmpty(s);
    TwTokens(s);
    if Tokens(s) == [] {
      assert Tw(s) == Join([]);
    } else {
      TokensEmpty(Tw(s));
    }
  }

  lemma PrefixedIdempotent(cls: string)
    ensures Prefixed(Prefixed(cls)) == Prefixed(cls)
  {
    if !(ClassPrefix <= cls) {
      assert (ClassPrefix + cls)[..|ClassPrefix|] == ClassPrefix;
    }
  }

  /** Applying `tw` to its own output changes nothing. */
  lemma TwIdempotent(s: string)
    ensures Tw(Tw(s)) == Tw(s)
  {
    TwTokens(s);
    var once := PrefixAll(Tokens(s));
    forall i | 0 <= i < |once| ensures PrefixAll(once)[i] == once[i] {
      PrefixedIdempotent(Tokens(s)[i]);
    }
    assert PrefixAll(once) == once;
  }
}
