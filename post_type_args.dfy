/**
 * The `--post-types=<list>` argument: PHP's `explode( ',', … )` and `implode`,
 * `trim`, the `post,page` default, and the `array_diff` against the public
 * post types that both WP-CLI commands use to reject unknown types.
 */
module PostTypeArgs {
  import opened Wrappers

  const Separator := ','
  const DefaultPostTypes: seq<string> := ["post", "page"]

  /** PHP's `explode( sep, s )`: the pieces between separators, always at least one. */
  function Split(s: string, sep: char): (parts: seq<string>)
    ensures |parts| >= 1
    ensures forall i :: 0 <= i < |parts| ==> sep !in parts[i]
    decreases |s|
  {
    if |s| == 0 then [""]
    else
      var rest := Split(s[1..], sep);
      if s[0] == sep then [""] + rest
      else [[s[0]] + rest[0]] + rest[1..]
  }

  /** PHP's `implode( sep, parts )`. */
  function Join(parts: seq<string>, sep: char): string
    requires |parts| >= 1
  {
    if |parts| == 1 then parts[0] else parts[0] + [sep] + Join(parts[1..], sep)
  }

  /** Joining the pieces of `explode` gives back the argument. */
  lemma {:induction false} JoinSplit(s: string, sep: char)
    ensures Join(Split(s, sep), sep) == s
    decreases |s|
  {
    if |s| > 0 {
      var rest := Split(s[1..], sep);
      JoinSplit(s[1..], sep);
      if s[0] == sep {
        assert ([""] + rest)[1..] == rest;
      } else {
        var parts := [[s[0]] + rest[0]] + rest[1..];
        if |rest| == 1 {
          assert parts == [[s[0]] + rest[0]];
        } else {
          assert parts[1..] == rest[1..];
          assert Join(rest, sep) == rest[0] + [sep] + Join(rest[1..], sep);
        }
      }
    }
  }

  /** Splitting a join of separator-free pieces gives back the pieces. */
  lemma {:induction false} SplitJoin(parts: seq<string>, sep: char)
    requires |parts| >= 1
    requires forall i :: 0 <= i < |parts| ==> sep !in parts[i]
    ensures Split(Join(parts, sep), sep) == parts
    decreases |parts|, |parts[0]|
  {
    var p := parts[0];
    if |p| == 0 {
      if |parts| > 1 {
        SplitJoin(parts[1..], sep);
        var s := Join(parts, sep);
        assert s == [sep] + Join(parts[1..], sep);
        assert s[1..] == Join(parts[1..], sep);
      }
    } else {
      var shorter := [p[1..]] + parts[1..];
      assert shorter[1..] == parts[1..];
      assert forall i :: 0 <= i < |shorter| ==> sep !in shorter[i] by {
        forall i | 0 <= i < |shorter| ensures sep !in shorter[i] {
          if i == 0 {
            assert forall c :: c in p[1..] ==> c in p;
          } else {
            assert shorter[i] == parts[i];
          }
        }
      }
      SplitJoin(shorter, sep);
      var s := Join(parts, sep);
      if |parts| == 1 {
        assert s == p && s[1..] == Join(shorter, sep);
      } else {
        assert s == p + [sep] + Join(parts[1..], sep);
        assert Join(shorter, sep) == p[1..] + [sep] + Join(parts[1..], sep);
        assert s[1..] == Join(shorter, sep);
      }
      assert s[0] == p[0] && p[0] != sep;
      assert p == [p[0]] + p[1..];
    }
  }

  /** The characters PHP's `trim` strips by default. */
  predicate IsTrimmed(c: char)
  {
    c == ' ' || c == '\t' || c == '\n' || c == '\r' || c == '\0' || c == '\U{B}'
  }

  /** Drops leading blanks: the result is the suffix starting at the first non-blank. */
  function TrimStart(s: string): (r: string)
    ensures |r| <= |s| && r == s[|s| - |r|..]
    ensures forall i :: 0 <= i < |s| - |r| ==> IsTrimmed(s[i])
    ensures r == [] || !IsTrimmed(r[0])
    decreases |s|
  {
    if |s| > 0 && IsTrimmed(s[0]) then TrimStart(s[1..]) else s
  }

  /** Drops trailing blanks: the result is the prefix ending at the last non-blank. */
  function TrimEnd(s: string): (r: string)
    ensures |r| <= |s| && r == s[..|r|]
    ensures forall i :: |r| <= i < |s| ==> IsTrimmed(s[i])
    ensures r == [] || !IsTrimmed(r[|r| - 1])
    decreases |s|
  {
    if |s| > 0 && IsTrimmed(s[|s| - 1]) then TrimEnd(s[..|s| - 1]) else s
  }

  /** `r` is `s[i..i + |r|]` and everything of `s` outside that piece is blank. */
  ghost predicate TrimmedAt(s: string, r: string, i: int)
  {
    0 <= i <= |s| - |r| && r == s[i..i + |r|]
    && (forall k :: 0 <= k < i ==> IsTrimmed(s[k]))
    && (forall k :: i + |r| <= k < |s| ==> IsTrimmed(s[k]))
  }

  /** Cutting only blanks off the start of `s`, then only blanks off the end of what is left, leaves a trimmed piece of `s`. */
  lemma TrimmedPieces(s: string, t: string, r: string)
    requires |t| <= |s| && t == s[|s| - |t|..] && forall k :: 0 <= k < |s| - |t| ==> IsTrimmed(s[k])
    requires |r| <= |t| && r == t[..|r|] && forall k :: |r| <= k < |t| ==> IsTrimmed(t[k])
    ensures TrimmedAt(s, r, |s| - |t|)
  {
    var i := |s| - |t|;
    forall k | 0 <= k < |r| ensures r[k] == s[i + k] {
      assert r[k] == t[k] == s[i + k];
    }
    forall k | i + |r| <= k < |s| ensures IsTrimmed(s[k]) {
      assert s[k] == t[k - i];
    }
    assert r == s[i..i + |r|];
  }

  /** PHP's `trim`: a contiguous piece of `s`, blank-free at both ends, with only blanks cut off. */
  function Trim(s: string): (r: string)
    ensures exists i :: TrimmedAt(s, r, i)
    ensures r == [] || (!IsTrimmed(r[0]) && !IsTrimmed(r[|r| - 1]))
  {
    var t := TrimStart(s);
    TrimmedPieces(s, t, TrimEnd(t));
    TrimEnd(t)
  }

  /** `explode( ',', $arg )` or the `post,page` default (the second command and the test double). */
  function SplitPostTypes(arg: Option<string>): (types: seq<string>)
    ensures arg.None? ==> types == DefaultPostTypes
    ensures arg.Some? ==> |types| >= 1 && Join(types, Separator) == arg.value
    ensures arg.Some? ==> forall i :: 0 <= i < |types| ==> Separator !in types[i]
  {
    match arg
    case None => DefaultPostTypes
    case Some(s) => JoinSplit(s, Separator); Split(s, Separator)
  }

  /** `array_map( 'trim', explode( ',', $arg ) )` or the `post,page` default (the first command). */
  function ParsePostTypes(arg: Option<string>): (types: seq<string>)
    ensures arg.None? ==> types == DefaultPostTypes
    ensures arg.Some? ==> |types| == |Split(arg.value, Separator)|
    ensures arg.Some? ==> forall i :: 0 <= i < |types| ==>
      types[i] == Trim(Split(arg.value, Separator)[i]) && Separator !in types[i]
  {
    match arg
    case None => DefaultPostTypes
    case Some(s) =>
      var parts := Split(s, Separator);
      seq(|parts|, i requires 0 <= i < |parts| =>
        var t := Trim(parts[i]);
        assert forall c :: c in t ==> c in parts[i];
        t)
  }

  /** `array_diff( $types, $available )`: the requested types that are not public, in request order. */
  function InvalidTypes(types: seq<string>, available: set<string>): (invalid: seq<string>)
    ensures |invalid| <= |types|
    ensures forall t :: t in invalid <==> t in types && t !in available
  {
    if |types| == 0 then []
    else
      var rest := InvalidTypes(types[1..], available);
      assert forall t :: t in types <==> t == types[0] || t in types[1..];
      if types[0] in available then rest else [types[0]] + rest
  }
}
