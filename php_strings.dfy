/** The PHP string built-ins the client is made of: `explode`, `implode` and `str_replace`
    (single needle and array form), each with the semantics PHP gives it on strings. */
module PhpStrings {

  /** `explode($sep, $s)`: the pieces of `s` between the non-overlapping occurrences of `sep`,
      found scanning from the left. There is always at least one piece. */
  function Explode(sep: string, s: string): (parts: seq<string>)
    requires sep != []
    ensures |parts| >= 1
    decreases |s|
  {
    if |s| < |sep| then [s]
    else if s[..|sep|] == sep then [""] + Explode(sep, s[|sep|..])
    else
      var rest := Explode(sep, s[1..]);
      [[s[0]] + rest[0]] + rest[1..]
  }

  /** `implode($glue, $parts)`; one-argument `implode($parts)` is glue "". */
  function Implode(glue: string, parts: seq<string>): string
  {
    if parts == [] then ""
    else if |parts| == 1 then parts[0]
    else parts[0] + glue + Implode(glue, parts[1..])
  }

  /** `str_replace($needle, $rep, $s)` for one non-empty needle: every non-overlapping
      occurrence, scanning from the left, is replaced. */
  function StrReplace(needle: string, rep: string, s: string): string
    requires needle != []
    decreases |s|
  {
    if |s| < |needle| then s
    else if s[..|needle|] == needle then rep + StrReplace(needle, rep, s[|needle|..])
    else [s[0]] + StrReplace(needle, rep, s[1..])
  }

  /** `str_replace(array $keys, array $vals, $s)`: the needles are applied one after the
      other, each to the result of the previous one; an empty needle is skipped and a needle
      with no matching replacement is replaced by "". */
  function StrReplaceAll(keys: seq<string>, vals: seq<string>, s: string): string
    decreases |keys|
  {
    if keys == [] then s
    else
      var v := if vals == [] then "" else vals[0];
      var s' := if keys[0] == "" then s else StrReplace(keys[0], v, s);
      StrReplaceAll(keys[1..], if vals == [] then [] else vals[1..], s')
  }

  /** `str_replace(array $keys, array $vals, array $subjects)`: each subject on its own. */
  function StrReplaceEach(keys: seq<string>, vals: seq<string>, subjects: seq<string>): (r: seq<string>)
    ensures |r| == |subjects|
    ensures forall i :: 0 <= i < |subjects| ==> r[i] == StrReplaceAll(keys, vals, subjects[i])
  {
    seq(|subjects|, i requires 0 <= i < |subjects| => StrReplaceAll(keys, vals, subjects[i]))
  }

  /** `needle` occurs in `s` starting at position `i`. */
  ghost predicate OccursAt(needle: string, s: string, i: int)
  {
    0 <= i <= |s| - |needle| && s[i..i + |needle|] == needle
  }

  /** `needle` occurs somewhere in `s`. */
  ghost predicate Occurs(needle: string, s: string)
  {
    exists i :: OccursAt(needle, s, i)
  }

  /** Reference definition: `s` with every `c` removed. */
  function Without(c: char, s: string): (r: string)
    ensures c !in r
  {
    if s == [] then []
    else (if s[0] == c then [] else [s[0]]) + Without(c, s[1..])
  }

  // ---------------------------------------------------------------------------------------
  // implode

  lemma {:induction false} ImplodeConsHead(glue: string, c: string, parts: seq<string>)
    requires |parts| >= 1
    ensures Implode(glue, [c + parts[0]] + parts[1..]) == c + Implode(glue, parts)
  {
    var q := [c + parts[0]] + parts[1..];
    if |parts| > 1 {
      assert q[1..] == parts[1..];
    }
  }

  /** With no glue, implode distributes over concatenation. */
  lemma {:induction false} ConcatAppend(x: seq<string>, y: seq<string>)
    ensures Implode("", x + y) == Implode("", x) + Implode("", y)
  {
    if x == [] {
      assert x + y == y;
    } else if y == [] {
      assert x + y == x;
    } else {
      assert (x + y)[1..] == x[1..] + y;
      ConcatAppend(x[1..], y);
    }
  }

  /** No `c` in any part nor in the glue: no `c` in the joined string. */
  lemma {:induction false} ImplodeAvoids(c: char, glue: string, parts: seq<string>)
    requires c !in glue
    requires forall i :: 0 <= i < |parts| ==> c !in parts[i]
    ensures c !in Implode(glue, parts)
  {
    if |parts| > 1 {
      ImplodeAvoids(c, glue, parts[1..]);
    }
  }

  /** PHP's loop that appends `glue` to every part but the last and then implodes with no
      glue builds the same string as implode with `glue`. */
  lemma {:induction false} ImplodeTerminated(glue: string, parts: seq<string>, ready: seq<string>)
    requires |ready| == |parts|
    requires forall j :: 0 <= j < |parts| ==> ready[j] == parts[j] + (if j != |parts| - 1 then glue else "")
    ensures Implode("", ready) == Implode(glue, parts)
  {
    if |parts| > 1 {
      ImplodeTerminated(glue, parts[1..], ready[1..]);
    }
  }

  // ---------------------------------------------------------------------------------------
  // str_replace against explode/implode

  /** Reference for `str_replace`: replacing a needle is exploding on it and imploding with
      the replacement. */
  lemma {:induction false} StrReplaceIsImplodeExplode(needle: string, rep: string, s: string)
    requires needle != []
    ensures StrReplace(needle, rep, s) == Implode(rep, Explode(needle, s))
    decreases |s|
  {
    if |s| < |needle| {
    } else if s[..|needle|] == needle {
      var rest := Explode(needle, s[|needle|..]);
      StrReplaceIsImplodeExplode(needle, rep, s[|needle|..]);
      assert ([""] + rest)[1..] == rest;
    } else {
      var rest := Explode(needle, s[1..]);
      StrReplaceIsImplodeExplode(needle, rep, s[1..]);
      ImplodeConsHead(rep, [s[0]], rest);
    }
  }

  /** Replacing a needle by itself changes nothing. */
  lemma {:induction false} StrReplaceSelf(needle: string, s: string)
    requires needle != []
    ensures StrReplace(needle, needle, s) == s
    decreases |s|
  {
    if |s| < |needle| {
    } else if s[..|needle|] == needle {
      StrReplaceSelf(needle, s[|needle|..]);
      assert s == s[..|needle|] + s[|needle|..];
    } else {
      StrReplaceSelf(needle, s[1..]);
      assert s == [s[0]] + s[1..];
    }
  }

  /** Round trip: imploding the pieces of `explode` with the separator gives back `s`. */
  lemma {:induction false} ImplodeExplode(sep: string, s: string)
    requires sep != []
    ensures Implode(sep, Explode(sep, s)) == s
  {
    StrReplaceIsImplodeExplode(sep, sep, s);
    StrReplaceSelf(sep, s);
  }

  /** A needle that does not occur leaves the subject unchanged. */
  lemma {:induction false} StrReplaceAbsent(needle: string, rep: string, s: string)
    requires needle != []
    requires !Occurs(needle, s)
    ensures StrReplace(needle, rep, s) == s
    decreases |s|
  {
    if |s| < |needle| {
    } else {
      assert s[0..0 + |needle|] == s[..|needle|];
      assert !OccursAt(needle, s, 0);
      forall i | OccursAt(needle, s[1..], i) ensures OccursAt(needle, s, i + 1) {
        assert s[i + 1..i + 1 + |needle|] == s[1..][i..i + |needle|];
      }
      StrReplaceAbsent(needle, rep, s[1..]);
      assert s == [s[0]] + s[1..];
    }
  }

  /** Needles that do not occur are skipped one after the other: the subject is unchanged. */
  lemma {:induction false} StrReplaceAllAbsent(keys: seq<string>, vals: seq<string>, s: string)
    requires forall i :: 0 <= i < |keys| && keys[i] != "" ==> !Occurs(keys[i], s)
    ensures StrReplaceAll(keys, vals, s) == s
    decreases |keys|
  {
    if keys != [] {
      var v := if vals == [] then "" else vals[0];
      if keys[0] != "" {
        StrReplaceAbsent(keys[0], v, s);
      }
      StrReplaceAllAbsent(keys[1..], if vals == [] then [] else vals[1..], s);
    }
  }

  /** A character in neither the subject nor the replacement is not in the result. */
  lemma {:induction false} StrReplaceAvoids(c: char, needle: string, rep: string, s: string)
    requires needle != []
    requires c !in s && c !in rep
    ensures c !in StrReplace(needle, rep, s)
    decreases |s|
  {
    if |s| < |needle| {
    } else if s[..|needle|] == needle {
      StrReplaceAvoids(c, needle, rep, s[|needle|..]);
    } else {
      StrReplaceAvoids(c, needle, rep, s[1..]);
    }
  }

  /** The same for the array form, when no replacement value holds `c`. */
  lemma {:induction false} StrReplaceAllAvoids(c: char, keys: seq<string>, vals: seq<string>, s: string)
    requires c !in s
    requires forall i :: 0 <= i < |vals| ==> c !in vals[i]
    ensures c !in StrReplaceAll(keys, vals, s)
    decreases |keys|
  {
    if keys != [] {
      var v := if vals == [] then "" else vals[0];
      var s' := if keys[0] == "" then s else StrReplace(keys[0], v, s);
      if keys[0] != "" {
        StrReplaceAvoids(c, keys[0], v, s);
      }
      StrReplaceAllAvoids(c, keys[1..], if vals == [] then [] else vals[1..], s');
    }
  }

  /** Replacing a one-character needle by nothing removes that character. */
  lemma {:induction false} StrReplaceCharByNothing(c: char, s: string)
    ensures StrReplace([c], "", s) == Without(c, s)
    decreases |s|
  {
    if s != [] {
      assert s[..1] == [s[0]];
      StrReplaceCharByNothing(c, s[1..]);
    }
  }

  // ---------------------------------------------------------------------------------------
  // explode on a one-character separator

  /** No piece of `explode` holds the separator. */
  lemma {:induction false} ExplodePartsAvoid(c: char, s: string)
    ensures forall i :: 0 <= i < |Explode([c], s)| ==> c !in Explode([c], s)[i]
    decreases |s|
  {
    if s != [] {
      assert s[..1] == [s[0]];
      if s[0] == c {
        ExplodePartsAvoid(c, s[1..]);
      } else {
        ExplodePartsAvoid(c, s[1..]);
      }
    }
  }

  /** Without the separator there is a single piece: `s` itself. */
  lemma {:induction false} ExplodeAbsent(c: char, s: string)
    requires c !in s
    ensures Explode([c], s) == [s]
    decreases |s|
  {
    if s != [] {
      assert s[..1] == [s[0]];
      ExplodeAbsent(c, s[1..]);
      assert s == [s[0]] + s[1..];
    }
  }

  /** Exploding at a separator splits the pieces there. */
  lemma {:induction false} ExplodeConcat(c: char, a: string, b: string)
    ensures Explode([c], a + [c] + b) == Explode([c], a) + Explode([c], b)
    decreases |a|
  {
    var s := a + [c] + b;
    assert s[..1] == (if a == [] then [c] else [a[0]]);
    if a == [] {
      assert s[1..] == b;
    } else {
      assert s[1..] == a[1..] + [c] + b;
      assert a[..1] == [a[0]];
      ExplodeConcat(c, a[1..], b);
      if a[0] != c {
        var ea := Explode([c], a[1..]);
        assert (ea + Explode([c], b))[0] == ea[0];
        assert (ea + Explode([c], b))[1..] == ea[1..] + Explode([c], b);
      }
    }
  }

  /** A prefix without the separator is the first piece. */
  lemma {:induction false} ExplodeAfterPrefix(c: char, p: string, rest: string)
    requires c !in p
    ensures Explode([c], p + [c] + rest) == [p] + Explode([c], rest)
  {
    ExplodeConcat(c, p, rest);
    ExplodeAbsent(c, p);
  }

  /** Round trip the other way: parts without the separator are recovered by exploding
      their implosion. */
  lemma {:induction false} ExplodeImplode(c: char, parts: seq<string>)
    requires |parts| >= 1
    requires forall i :: 0 <= i < |parts| ==> c !in parts[i]
    ensures Explode([c], Implode([c], parts)) == parts
  {
    if |parts| == 1 {
      ExplodeAbsent(c, parts[0]);
    } else {
      ExplodeImplode(c, parts[1..]);
      ExplodeAfterPrefix(c, parts[0], Implode([c], parts[1..]));
      assert parts == [parts[0]] + parts[1..];
    }
  }

  /** Exploding on a character and imploding with no glue removes that character. */
  lemma {:induction false} ImplodeExplodeRemoves(c: char, s: string)
    ensures Implode("", Explode([c], s)) == Without(c, s)
  {
    StrReplaceIsImplodeExplode([c], "", s);
    StrReplaceCharByNothing(c, s);
  }

  /** There are at least two pieces exactly when the separator occurs. */
  lemma {:induction false} ExplodeSplits(c: char, s: string)
    ensures |Explode([c], s)| >= 2 <==> c in s
  {
    if c in s {
      var i :| 0 <= i < |s| && s[i] == c;
      assert s == s[..i] + [c] + s[i + 1..];
      ExplodeConcat(c, s[..i], s[i + 1..]);
    } else {
      ExplodeAbsent(c, s);
    }
  }

  /** A needle whose first character is not in `s` does not occur in `s`. */
  lemma FirstCharAbsent(needle: string, s: string)
    requires needle != [] && needle[0] !in s
    ensures !Occurs(needle, s)
  {
  }
}
