/** Splitting the recipients string on a one-character delimiter, as Kotlin's
    `CharSequence.split(delimiter)` does with no limit: every piece between two
    occurrences of the delimiter is kept, empty pieces included, so the result
    always has one more piece than the string has delimiters. */
module Recipients {

  /** Number of occurrences of `d` in `s`. */
  function Occurrences(s: string, d: char): nat
  {
    if s == [] then 0 else (if s[0] == d then 1 else 0) + Occurrences(s[1..], d)
  }

  /** The pieces of `s` between occurrences of `d`, in order. */
  function Split(s: string, d: char): (pieces: seq<string>)
    ensures |pieces| == Occurrences(s, d) + 1
    ensures forall k :: 0 <= k < |pieces| ==> d !in pieces[k]
  {
    if s == [] then [""]
    else
      var rest := Split(s[1..], d);
      if s[0] == d then [""] + rest
      else [[s[0]] + rest[0]] + rest[1..]
  }

  /** The pieces glued back together with `d` between neighbours. */
  function Join(pieces: seq<string>, d: char): string
  {
    if |pieces| == 0 then ""
    else if |pieces| == 1 then pieces[0]
    else pieces[0] + [d] + Join(pieces[1..], d)
  }

  /** Splitting loses nothing: joining the pieces gives back the string. */
  lemma {:induction false} JoinSplit(s: string, d: char)
    ensures Join(Split(s, d), d) == s
  {
    if s != [] {
      var rest := Split(s[1..], d);
      JoinSplit(s[1..], d);
      if s[0] == d {
        JoinEmptyFirst(rest, d);
      } else {
        JoinExtendFirst(s[0], rest, d);
      }
      assert s == [s[0]] + s[1..];
    }
  }

  lemma JoinEmptyFirst(rest: seq<string>, d: char)
    requires |rest| >= 1
    ensures Join([""] + rest, d) == [d] + Join(rest, d)
  {
    assert ([""] + rest)[1..] == rest;
  }

  lemma JoinExtendFirst(c: char, rest: seq<string>, d: char)
    requires |rest| >= 1
    ensures Join([[c] + rest[0]] + rest[1..], d) == [c] + Join(rest, d)
  {
    var pieces := [[c] + rest[0]] + rest[1..];
    if |rest| > 1 {
      assert pieces[1..] == rest[1..];
    }
  }

  /** A delimiter-free prefix only extends the first piece. */
  lemma {:induction false} SplitFreePrefix(p: string, t: string, d: char)
    requires d !in p
    ensures Split(p + t, d) == [p + Split(t, d)[0]] + Split(t, d)[1..]
  {
    if p != [] {
      assert (p + t)[1..] == p[1..] + t;
      assert (p + t)[0] == p[0];
      SplitFreePrefix(p[1..], t, d);
      assert [p[0]] + (p[1..] + Split(t, d)[0]) == p + Split(t, d)[0];
    } else {
      var pieces := Split(t, d);
      assert p + t == t && p + pieces[0] == pieces[0];
      assert pieces == [pieces[0]] + pieces[1..];
    }
  }

  /** Joining delimiter-free pieces and splitting again gives the same pieces:
      the recipients list is determined by the string and vice versa. */
  lemma {:induction false} SplitJoin(pieces: seq<string>, d: char)
    requires |pieces| >= 1
    requires forall k :: 0 <= k < |pieces| ==> d !in pieces[k]
    ensures Split(Join(pieces, d), d) == pieces
  {
    var p := pieces[0];
    if |pieces| == 1 {
      SplitFreePrefix(p, "", d);
      assert p + "" == p;
    } else {
      var tail := Join(pieces[1..], d);
      SplitJoin(pieces[1..], d);
      assert Join(pieces, d) == p + ([d] + tail);
      SplitFreePrefix(p, [d] + tail, d);
      assert ([d] + tail)[1..] == tail;
      assert Split([d] + tail, d) == [""] + pieces[1..];
      assert p + "" == p;
      assert [p] + pieces[1..] == pieces;
    }
  }
}
