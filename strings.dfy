/**
 * The parts of Go's `strings` package the scanner relies on: TrimSpace,
 * Split on a single-character separator, and the byte-to-string conversion
 * applied to a banner read from a connection.  Go strings are byte strings;
 * here a string is a `seq<char>` whose characters stand for those bytes.
 */
module Strings {

  /** A byte as read from a connection. */
  newtype byte = x: int | 0 <= x < 256

  /** Go's `string(buf[:n])`: every byte becomes one character, unchanged. */
  function StringOfBytes(bytes: seq<byte>): (s: string)
    ensures |s| == |bytes|
    ensures forall i :: 0 <= i < |s| ==> s[i] as int == bytes[i] as int
  {
    seq(|bytes|, i requires 0 <= i < |bytes| => (bytes[i] as int) as char)
  }

  /** The ASCII white-space characters TrimSpace removes: space, \t, \n, \v, \f, \r. */
  predicate IsSpace(c: char)
  {
    c == ' ' || c == '\t' || c == '\n' || c == '\U{000B}' || c == '\U{000C}' || c == '\r'
  }

  /** How many white-space characters s starts with. */
  function LeadingSpaces(s: string): (k: nat)
    ensures k <= |s|
    ensures forall i :: 0 <= i < k ==> IsSpace(s[i])
    ensures k < |s| ==> !IsSpace(s[k])
  {
    if |s| > 0 && IsSpace(s[0]) then 1 + LeadingSpaces(s[1..]) else 0
  }

  /** Where the white space that s ends with begins. */
  function TrailingSpacesStart(s: string): (k: nat)
    ensures k <= |s|
    ensures forall i :: k <= i < |s| ==> IsSpace(s[i])
    ensures 0 < k ==> !IsSpace(s[k - 1])
  {
    if |s| > 0 && IsSpace(s[|s| - 1]) then TrailingSpacesStart(s[..|s| - 1]) else |s|
  }

  /**
   * Go's strings.TrimSpace over ASCII white space: the slice of s left once
   * its leading and trailing white space are cut off.
   */
  function TrimSpace(s: string): (r: string)
    ensures |r| <= |s|
    ensures r == [] || (!IsSpace(r[0]) && !IsSpace(r[|r| - 1]))
  {
    var rest := s[LeadingSpaces(s)..];
    rest[..TrailingSpacesStart(rest)]
  }

  /**
   * TrimSpace cuts only white space: what it keeps is a contiguous slice of s,
   * and everything before and after that slice is white space.
   */
  lemma TrimSpaceSlice(s: string)
    ensures LeadingSpaces(s) + |TrimSpace(s)| <= |s|
    ensures TrimSpace(s) == s[LeadingSpaces(s)..LeadingSpaces(s) + |TrimSpace(s)|]
    ensures forall i :: 0 <= i < LeadingSpaces(s) ==> IsSpace(s[i])
    ensures forall i :: LeadingSpaces(s) + |TrimSpace(s)| <= i < |s| ==> IsSpace(s[i])
  {
    var lo := LeadingSpaces(s);
    var rest := s[lo..];
    var hi := TrailingSpacesStart(rest);
    assert TrimSpace(s) == rest[..hi] == s[lo..lo + hi];
    forall i | lo + hi <= i < |s| ensures IsSpace(s[i]) {
      assert s[i] == rest[i - lo];
    }
  }

  /** TrimSpace leaves nothing exactly when s is all white space. */
  lemma TrimSpaceEmpty(s: string)
    ensures TrimSpace(s) == [] <==> forall i :: 0 <= i < |s| ==> IsSpace(s[i])
  {
    TrimSpaceSlice(s);
    if forall i :: 0 <= i < |s| ==> IsSpace(s[i]) {
      assert LeadingSpaces(s) == |s|;
    }
  }

  /**
   * TrimSpace is the only trimming of its kind: any slice s[i..j] that has
   * only white space around it and none at its ends is TrimSpace(s).
   */
  lemma TrimSpaceUnique(s: string, i: nat, j: nat)
    requires i <= j <= |s|
    requires forall k :: 0 <= k < i ==> IsSpace(s[k])
    requires forall k :: j <= k < |s| ==> IsSpace(s[k])
    requires i < j ==> !IsSpace(s[i]) && !IsSpace(s[j - 1])
    ensures TrimSpace(s) == s[i..j]
  {
    TrimSpaceSlice(s);
    TrimSpaceEmpty(s);
    var r := TrimSpace(s);
    var lo := LeadingSpaces(s);
    if i == j {
      assert forall k :: 0 <= k < |s| ==> IsSpace(s[k]) by {
        forall k | 0 <= k < |s| ensures IsSpace(s[k]) {
          if k >= i { assert k >= j; }
        }
      }
    } else {
      assert lo == i;
      assert lo + |r| == j;
    }
  }

  /** Trimming twice is trimming once. */
  lemma TrimSpaceIdempotent(s: string)
    ensures TrimSpace(TrimSpace(s)) == TrimSpace(s)
  {
    var r := TrimSpace(s);
    TrimSpaceUnique(r, 0, |r|);
    assert r[0..|r|] == r;
  }

  /** A string with no white space in it is left as it is. */
  lemma TrimSpaceWithoutSpaces(s: string)
    requires forall i :: 0 <= i < |s| ==> !IsSpace(s[i])
    ensures TrimSpace(s) == s
  {
    TrimSpaceUnique(s, 0, |s|);
    assert s[0..|s|] == s;
  }

  /** White space added around a string does not change its trimmed form. */
  lemma TrimSpacePadded(before: string, s: string, after: string)
    requires forall i :: 0 <= i < |before| ==> IsSpace(before[i])
    requires forall i :: 0 <= i < |after| ==> IsSpace(after[i])
    ensures TrimSpace(before + s + after) == TrimSpace(s)
  {
    var padded := before + s + after;
    TrimSpaceSlice(s);
    var lo, r := LeadingSpaces(s), TrimSpace(s);
    var i, j := |before| + lo, |before| + lo + |r|;
    assert padded[i..j] == r;
    forall k | 0 <= k < i ensures IsSpace(padded[k]) {
      if k >= |before| { assert padded[k] == s[k - |before|]; }
    }
    forall k | j <= k < |padded| ensures IsSpace(padded[k]) {
      if k < |before| + |s| { assert padded[k] == s[k - |before|]; }
    }
    TrimSpaceUnique(padded, i, j);
  }

  /** A banner-like line loses its CR LF terminator and nothing else. */
  lemma TrimSpaceBannerExample()
    ensures TrimSpace("SSH-2.0-OpenSSH_8.9\r\n") == "SSH-2.0-OpenSSH_8.9"
  {
    var s := "SSH-2.0-OpenSSH_8.9\r\n";
    TrimSpaceUnique(s, 0, 19);
    assert s[0..19] == "SSH-2.0-OpenSSH_8.9";
  }

  /** Go's strings.Join(parts, string(sep)). */
  function Join(parts: seq<string>, sep: char): string
  {
    if |parts| == 0 then ""
    else if |parts| == 1 then parts[0]
    else parts[0] + [sep] + Join(parts[1..], sep)
  }

  /**
   * Go's strings.Split(s, string(sep)): the pieces of s between occurrences of
   * sep, one more than there are separators, empty pieces kept.
   */
  function Split(s: string, sep: char): (parts: seq<string>)
    ensures |parts| == multiset(s)[sep] + 1
    ensures forall i :: 0 <= i < |parts| ==> sep !in parts[i]
    decreases |s|
  {
    if |s| == 0 then [""]
    else
      var rest := Split(s[1..], sep);
      assert s == [s[0]] + s[1..];
      if s[0] == sep then [""] + rest
      else [[s[0]] + rest[0]] + rest[1..]
  }

  /** Prefixing the first piece prefixes the joined string. */
  lemma JoinPrependToFirst(c: char, parts: seq<string>, sep: char)
    requires |parts| > 0
    ensures Join([[c] + parts[0]] + parts[1..], sep) == [c] + Join(parts, sep)
  {
    var parts' := [[c] + parts[0]] + parts[1..];
    if |parts| > 1 {
      assert parts'[1..] == parts[1..];
    }
  }

  /** How Split treats the first character: a separator starts a new piece, anything else extends the first one. */
  lemma SplitCons(c: char, t: string, sep: char)
    ensures Split([c] + t, sep) ==
              if c == sep then [""] + Split(t, sep)
              else [[c] + Split(t, sep)[0]] + Split(t, sep)[1..]
  {
    var s := [c] + t;
    assert s[0] == c && s[1..] == t;
  }

  /** An empty first piece contributes only the separator that follows it. */
  lemma JoinPrependEmpty(parts: seq<string>, sep: char)
    requires |parts| > 0
    ensures Join([""] + parts, sep) == [sep] + Join(parts, sep)
  {
    var parts' := [""] + parts;
    assert parts'[1..] == parts;
  }

  /** Joining the pieces with the separator gives back the string that was split. */
  lemma {:induction false} JoinSplit(s: string, sep: char)
    ensures Join(Split(s, sep), sep) == s
    decreases |s|
  {
    if |s| > 0 {
      var c, t := s[0], s[1..];
      assert s == [c] + t;
      SplitCons(c, t, sep);
      JoinSplit(t, sep);
      if c == sep {
        JoinPrependEmpty(Split(t, sep), sep);
      } else {
        JoinPrependToFirst(c, Split(t, sep), sep);
      }
    }
  }

  /** A string without the separator is a single piece. */
  lemma {:induction false} SplitWithoutSeparator(s: string, sep: char)
    requires sep !in s
    ensures Split(s, sep) == [s]
    decreases |s|
  {
    if |s| > 0 {
      SplitWithoutSeparator(s[1..], sep);
      assert [s[0]] + s[1..] == s;
    }
  }

  /** A piece followed by the separator is split off as the first piece. */
  lemma {:induction false} SplitFirstPiece(a: string, b: string, sep: char)
    requires sep !in a
    ensures Split(a + [sep] + b, sep) == [a] + Split(b, sep)
    decreases |a|
  {
    if |a| == 0 {
      assert a + [sep] + b == [sep] + b;
      SplitCons(sep, b, sep);
    } else {
      var t := a[1..] + [sep] + b;
      assert a + [sep] + b == [a[0]] + t;
      assert [a[0]] + a[1..] == a;
      SplitFirstPiece(a[1..], b, sep);
      SplitCons(a[0], t, sep);
    }
  }

  /** Split undoes Join when no piece holds the separator. */
  lemma {:induction false} SplitJoin(parts: seq<string>, sep: char)
    requires |parts| > 0
    requires forall i :: 0 <= i < |parts| ==> sep !in parts[i]
    ensures Split(Join(parts, sep), sep) == parts
  {
    if |parts| == 1 {
      SplitWithoutSeparator(parts[0], sep);
    } else {
      SplitJoin(parts[1..], sep);
      SplitFirstPiece(parts[0], Join(parts[1..], sep), sep);
      assert [parts[0]] + parts[1..] == parts;
    }
  }
}
