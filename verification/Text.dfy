/** Trimming, as strings.TrimSpace of Go does it. */
module Text {
  /** White space as Unicode defines it. */
  predicate IsSpace(c: char) {
    var code := c as int;
    || 9 <= code <= 13 || code == 0x20 || code == 0x85 || code == 0xA0 || code == 0x1680
    || 0x2000 <= code <= 0x200A || code == 0x2028 || code == 0x2029 || code == 0x202F
    || code == 0x205F || code == 0x3000
  }

  function TrimLeft(s: string): string {
    if s != "" && IsSpace(s[0]) then TrimLeft(s[1..]) else s
  }

  function TrimRight(s: string): string {
    if s != "" && IsSpace(s[|s| - 1]) then TrimRight(s[..|s| - 1]) else s
  }

  function TrimSpace(s: string): string {
    TrimRight(TrimLeft(s))
  }

  predicate AllSpaces(s: string) {
    forall i :: 0 <= i < |s| ==> IsSpace(s[i])
  }

  /** Nothing, or text with no white space at either end. */
  predicate Solid(s: string) {
    s == "" || (!IsSpace(s[0]) && !IsSpace(s[|s| - 1]))
  }

  lemma {:induction false} TrimRightKeepsHead(head: string, s: string)
    requires head != "" && !IsSpace(head[|head| - 1])
    ensures TrimRight(head + s) == head + TrimRight(s)
  {
    var t := head + s;
    if s == "" {
      assert t == head;
    } else if IsSpace(s[|s| - 1]) {
      assert t[..|t| - 1] == head + s[..|s| - 1];
      TrimRightKeepsHead(head, s[..|s| - 1]);
    }
  }

  lemma {:induction false} TrimLeftOfTrimRight(s: string)
    ensures TrimLeft(TrimRight(s)) == TrimRight(TrimLeft(s))
  {
    if s != "" && IsSpace(s[0]) {
      if TrimRight(s) == "" {
        AllSpace(s);
        AllSpaceTrims(s[1..]);
        AllSpaceTrims(TrimLeft(s[1..]));
      } else {
        TrimRightTail(s);
        TrimLeftOfTrimRight(s[1..]);
      }
    } else if s != "" {
      TrimRightKeepsHead([s[0]], s[1..]);
      assert [s[0]] + s[1..] == s;
    }
  }

  lemma {:induction false} AllSpace(s: string)
    requires TrimRight(s) == ""
    ensures AllSpaces(s)
  {
    if s != "" {
      AllSpace(s[..|s| - 1]);
      forall i | 0 <= i < |s| ensures IsSpace(s[i]) {
        if i < |s| - 1 { assert s[i] == s[..|s| - 1][i]; }
      }
    }
  }

  lemma {:induction false} AllSpaceTrims(s: string)
    requires AllSpaces(s)
    ensures TrimLeft(s) == "" && TrimRight(s) == ""
    decreases |s|
  {
    if s != "" {
      AllSpaceTrims(s[1..]);
      AllSpaceTrims(s[..|s| - 1]);
    }
  }

  lemma {:induction false} TrimRightTail(s: string)
    requires s != "" && TrimRight(s) != ""
    ensures TrimRight(s) == [s[0]] + TrimRight(s[1..])
  {
    if IsSpace(s[|s| - 1]) {
      TrimRightTail(s[..|s| - 1]);
      assert |s| >= 2;
      var middle := s[1..|s| - 1];
      assert s[..|s| - 1][1..] == middle && s[1..][..|s| - 2] == middle;
    } else {
      assert |s| > 1 ==> s[1..][|s| - 2] == s[|s| - 1];
      assert s == [s[0]] + s[1..];
    }
  }

  lemma {:induction false} TrimRightTwice(s: string)
    ensures TrimRight(TrimRight(s)) == TrimRight(s)
  {
    if s != "" { TrimRightTwice(s[..|s| - 1]); }
  }

  lemma {:induction false} TrimLeftIsSuffix(s: string)
    ensures |TrimLeft(s)| <= |s| && TrimLeft(s) == s[|s| - |TrimLeft(s)|..]
    ensures AllSpaces(s[..|s| - |TrimLeft(s)|]) && (TrimLeft(s) != "" ==> !IsSpace(TrimLeft(s)[0]))
  {
    if s != "" && IsSpace(s[0]) {
      TrimLeftIsSuffix(s[1..]);
      assert s[..|s| - |TrimLeft(s)|] == [s[0]] + s[1..][..|s| - 1 - |TrimLeft(s)|];
    }
  }

  lemma {:induction false} TrimRightIsPrefix(s: string)
    ensures TrimRight(s) <= s && AllSpaces(s[|TrimRight(s)|..])
    ensures TrimRight(s) != "" ==> !IsSpace(TrimRight(s)[|TrimRight(s)| - 1])
  {
    if s != "" && IsSpace(s[|s| - 1]) {
      TrimRightIsPrefix(s[..|s| - 1]);
      assert s[|TrimRight(s)|..] == s[..|s| - 1][|TrimRight(s)|..] + [s[|s| - 1]];
    }
  }

  lemma {:induction false} TrimLeftPad(left: string, s: string)
    requires AllSpaces(left)
    ensures TrimLeft(left + s) == TrimLeft(s)
  {
    if left == "" {
      assert left + s == s;
    } else {
      assert (left + s)[1..] == left[1..] + s;
      TrimLeftPad(left[1..], s);
    }
  }

  /** Trimming takes the white space off both ends, and nothing else. */
  lemma TrimPadded(left: string, body: string, right: string)
    requires AllSpaces(left) && AllSpaces(right) && Solid(body)
    ensures TrimSpace(left + body + right) == body
  {
    AllSpaceTrims(right);
    assert left + body + right == left + (body + right);
    TrimLeftPad(left, body + right);
    if body == "" {
      assert body + right == right;
    } else {
      assert TrimLeft(body + right) == body + right;
      TrimRightKeepsHead(body, right);
    }
  }

  /** Trimmed text is the solid text between two stretches of white space, and there
      is only one. */
  lemma TrimSpaceIffBetween(s: string, t: string)
    ensures TrimSpace(s) == t <==>
      Solid(t) && exists i, j :: 0 <= i <= j <= |s| && AllSpaces(s[..i]) && t == s[i..j] && AllSpaces(s[j..])
  {
    var tail := TrimLeft(s);
    TrimLeftIsSuffix(s);
    TrimRightIsPrefix(tail);
    var i := |s| - |tail|;
    var j := i + |TrimSpace(s)|;
    assert s[i..j] == TrimSpace(s) && tail[|TrimSpace(s)|..] == s[j..];
    assert TrimSpace(s) != "" ==> TrimSpace(s)[0] == tail[0];
    if Solid(t) {
      forall i, j | 0 <= i <= j <= |s| && AllSpaces(s[..i]) && t == s[i..j] && AllSpaces(s[j..])
        ensures TrimSpace(s) == t
      {
        assert s == s[..i] + t + s[j..];
        TrimPadded(s[..i], t, s[j..]);
      }
    }
  }
}
