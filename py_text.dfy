/** Text operations the chunk-identity code relies on, written out because the
    model has no library: Python's `str(int)`, `os.path.basename`, the
    `[:n]` slice, and the shape of a `hexdigest()`. */
module PyText {

  datatype Option<T> = None | Some(value: T)

  predicate IsDigit(c: char) { '0' <= c <= '9' }

  predicate AllDigits(s: string) { forall k :: 0 <= k < |s| ==> IsDigit(s[k]) }

  function DigitChar(d: nat): (c: char)
    requires d < 10
    ensures IsDigit(c) && (c as int) - ('0' as int) == d
  {
    ['0', '1', '2', '3', '4', '5', '6', '7', '8', '9'][d]
  }

  /** `str(n)` for a non-negative Python int: decimal digits, no leading zero. */
  function NatToString(n: nat): (s: string)
    ensures |s| > 0 && AllDigits(s)
    ensures |s| > 1 ==> s[0] != '0'
    decreases n
  {
    if n < 10 then [DigitChar(n)] else NatToString(n / 10) + [DigitChar(n % 10)]
  }

  /** `str(i)` for any Python int. */
  function IntToString(i: int): (s: string)
    ensures |s| > 0
    ensures i < 0 <==> s[0] == '-'
  {
    if i < 0 then "-" + NatToString(-i) else NatToString(i)
  }

  /** The value of a string of decimal digits. */
  function DigitsValue(s: string): nat
    requires AllDigits(s)
  {
    if s == [] then 0
    else DigitsValue(s[..|s| - 1]) * 10 + ((s[|s| - 1] as int) - ('0' as int))
  }

  /** Reads back a non-empty run of decimal digits. */
  function ParseNat(s: string): (r: Option<nat>)
    ensures r.Some? <==> |s| > 0 && AllDigits(s)
  {
    if |s| > 0 && AllDigits(s) then Some(DigitsValue(s)) else None
  }

  /** Rendering a count and reading it back gives the count. */
  lemma {:induction false} ParseNatToString(n: nat)
    ensures ParseNat(NatToString(n)) == Some(n)
    decreases n
  {
    var s := NatToString(n);
    if n < 10 {
      assert s[..0] == [];
    } else {
      ParseNatToString(n / 10);
      assert s[..|s| - 1] == NatToString(n / 10);
      assert DigitsValue(s) == (n / 10) * 10 + n % 10;
    }
  }

  lemma NatToStringInjective(m: nat, n: nat)
    requires NatToString(m) == NatToString(n)
    ensures m == n
  {
    ParseNatToString(m);
    ParseNatToString(n);
  }

  /** POSIX `os.path.basename`: what follows the last '/', or the whole
      string when it has none. */
  function Basename(p: string): string
  {
    if p == [] || p[|p| - 1] == '/' then []
    else Basename(p[..|p| - 1]) + [p[|p| - 1]]
  }

  /** The base name is the part of the path after its last '/': a suffix
      holding no '/', preceded by a '/' unless it is the whole path. */
  lemma {:induction false} BasenameIsLastSegment(p: string)
    ensures var b := Basename(p);
      && '/' !in b
      && |b| <= |p| && b == p[|p| - |b|..]
      && (|b| < |p| ==> p[|p| - |b| - 1] == '/')
    decreases |p|
  {
    if p != [] && p[|p| - 1] != '/' {
      var init, last := p[..|p| - 1], p[|p| - 1];
      BasenameIsLastSegment(init);
      var prev := Basename(init);
      var b := Basename(p);
      assert b == prev + [last];
      assert '/' !in b by {
        assert forall c :: c in b ==> c in prev || c == last;
      }
      assert init + [last] == p;
      assert b == p[|p| - |b|..] by {
        assert prev == init[|init| - |prev|..];
        assert p[|p| - |b|..] == init[|init| - |prev|..] + [last];
      }
      if |b| < |p| {
        assert p[|p| - |b| - 1] == init[|init| - |prev| - 1];
      }
    }
  }

  /** A name holding no '/' is its own base name. */
  lemma BasenameOfName(name: string)
    requires '/' !in name
    ensures Basename(name) == name
  {
    BasenameIsLastSegment(name);
  }

  /** A path ending in "/name" has base name `name`. */
  lemma {:induction false} BasenameAfterSlash(dir: string, name: string)
    requires '/' !in name
    ensures Basename(dir + "/" + name) == name
    decreases |name|
  {
    var p := dir + "/" + name;
    if name != [] {
      var init := name[..|name| - 1];
      assert '/' !in init by {
        forall k | 0 <= k < |init| ensures init[k] != '/' {
          assert init[k] == name[k];
        }
      }
      BasenameAfterSlash(dir, init);
      assert p[..|p| - 1] == dir + "/" + init;
      assert init + [name[|name| - 1]] == name;
    }
  }

  /** Python's `s[:n]` for n >= 0: at most the first n characters. */
  function Take(s: string, n: nat): (t: string)
    ensures |t| == if |s| <= n then |s| else n
    ensures t == s[..|t|]
  {
    if |s| <= n then s else s[..n]
  }

  predicate IsLowerHexDigit(c: char) { '0' <= c <= '9' || 'a' <= c <= 'f' }

  /** What `hashlib.sha256(...).hexdigest()` returns: 64 lower-case hex digits. */
  predicate IsSha256HexDigest(h: string)
  {
    |h| == 64 && forall k :: 0 <= k < |h| ==> IsLowerHexDigit(h[k])
  }

  /** Splits at the LAST ':'; the part after it holds no ':'. */
  function SplitAtLastColon(s: string): (r: Option<(string, string)>)
    ensures r.Some? ==> s == r.value.0 + ":" + r.value.1 && ':' !in r.value.1
    ensures r.None? <==> ':' !in s
  {
    if s == [] then None
    else if s[|s| - 1] == ':' then Some((s[..|s| - 1], []))
    else
      match SplitAtLastColon(s[..|s| - 1])
      case None => None
      case Some((before, after)) => Some((before, after + [s[|s| - 1]]))
  }

  lemma {:induction false} SplitAtLastColonOf(before: string, after: string)
    requires ':' !in after
    ensures SplitAtLastColon(before + ":" + after) == Some((before, after))
    decreases |after|
  {
    var s := before + ":" + after;
    if after == [] {
      assert s[..|s| - 1] == before;
    } else {
      var shorter := after[..|after| - 1];
      assert ':' !in shorter by {
        forall k | 0 <= k < |shorter| ensures shorter[k] != ':' {
          assert shorter[k] == after[k];
        }
      }
      SplitAtLastColonOf(before, shorter);
      assert s[..|s| - 1] == before + ":" + shorter;
      assert s[|s| - 1] == after[|after| - 1];
      assert shorter + [after[|after| - 1]] == after;
    }
  }
}
