/**
 * The two pieces of JavaScript string semantics the chat component relies on:
 * `String.prototype.trim` and the truthiness of a string-valued field in `a || b`.
 */
module JsText {
  import opened Wrappers

  /**
   * The characters `trim` strips: ECMAScript's WhiteSpace (TAB, VT, FF, ZWNBSP and
   * every space separator of category Zs) and LineTerminator (LF, CR, LS, PS).
   */
  predicate IsWhitespace(c: char) {
    var n := c as int;
    n == 0x09 || n == 0x0A || n == 0x0B || n == 0x0C || n == 0x0D || n == 0x20
    || n == 0xA0 || n == 0x1680 || (0x2000 <= n <= 0x200A) || n == 0x2028
    || n == 0x2029 || n == 0x202F || n == 0x205F || n == 0x3000 || n == 0xFEFF
  }

  predicate AllWhitespace(s: string) {
    forall i :: 0 <= i < |s| ==> IsWhitespace(s[i])
  }

  /** `r` sits in `s` at offset `lead` with only whitespace on either side of it. */
  predicate Margins(s: string, lead: int, r: string) {
    0 <= lead && lead + |r| <= |s| && s[lead..lead + |r|] == r
    && AllWhitespace(s[..lead]) && AllWhitespace(s[lead + |r|..])
  }

  /** Drops the leading whitespace. */
  function TrimStart(s: string): (r: string)
    ensures |r| <= |s| && r == s[|s| - |r|..]
    ensures AllWhitespace(s[..|s| - |r|])
    ensures r == [] || !IsWhitespace(r[0])
  {
    if s != [] && IsWhitespace(s[0]) then
      var r := TrimStart(s[1..]);
      assert s[1..][..|s| - 1 - |r|] == s[1..|s| - |r|];
      r
    else s
  }

  /** Drops the trailing whitespace. */
  function TrimEnd(s: string): (r: string)
    ensures |r| <= |s| && r == s[..|r|]
    ensures AllWhitespace(s[|r|..])
    ensures r == [] || !IsWhitespace(r[|r| - 1])
  {
    if s != [] && IsWhitespace(s[|s| - 1]) then
      var r := TrimEnd(s[..|s| - 1]);
      assert s[..|s| - 1][|r|..] == s[|r|..|s| - 1];
      r
    else s
  }

  /**
   * `s.trim()`: drops the whitespace at both ends. The result neither starts nor ends
   * with whitespace, and it is empty exactly when `s` is all whitespace.
   */
  function Trim(s: string): (r: string)
    ensures |r| <= |s|
    ensures r == [] || (!IsWhitespace(r[0]) && !IsWhitespace(r[|r| - 1]))
    ensures r == [] <==> AllWhitespace(s)
  {
    var t := TrimStart(s);
    var r := TrimEnd(t);
    var lead := |s| - |t|;
    assert r == [] ==> AllWhitespace(s) by {
      if r == [] {
        assert t[|r|..] == t;
        assert s[..lead] == s;
      }
    }
    assert AllWhitespace(s) ==> t == [];
    r
  }

  /** What `Trim` removes is whitespace, and what it keeps is one contiguous piece of `s`. */
  lemma TrimMargins(s: string)
    ensures exists lead :: Margins(s, lead, Trim(s))
  {
    var t := TrimStart(s);
    var r := TrimEnd(t);
    var lead := |s| - |t|;
    assert r == Trim(s);
    assert s[lead..lead + |r|] == r;
    assert s[lead + |r|..] == t[|r|..];
    assert Margins(s, lead, r);
  }

  /** Whitespace in front of a string that starts with non-whitespace is all `TrimStart` removes. */
  lemma {:induction false} TrimStartPadded(a: string, t: string)
    requires AllWhitespace(a)
    requires t == [] || !IsWhitespace(t[0])
    ensures TrimStart(a + t) == t
  {
    if a == [] {
      assert a + t == t;
    } else {
      assert (a + t)[1..] == a[1..] + t;
      TrimStartPadded(a[1..], t);
    }
  }

  /** Whitespace after a string that ends with non-whitespace is all `TrimEnd` removes. */
  lemma {:induction false} TrimEndPadded(t: string, b: string)
    requires AllWhitespace(b)
    requires t == [] || !IsWhitespace(t[|t| - 1])
    ensures TrimEnd(t + b) == t
  {
    if b == [] {
      assert t + b == t;
    } else {
      assert (t + b)[..|t + b| - 1] == t + b[..|b| - 1];
      TrimEndPadded(t, b[..|b| - 1]);
    }
  }

  /**
   * The converse of `TrimMargins`: any decomposition of a string
   * into whitespace, a core without whitespace at its ends, and whitespace, is the one
   * `Trim` finds. Together the two pin `Trim` down completely.
   */
  lemma {:induction false} TrimOfPadded(a: string, r: string, b: string)
    requires AllWhitespace(a) && AllWhitespace(b)
    requires r == [] || (!IsWhitespace(r[0]) && !IsWhitespace(r[|r| - 1]))
    ensures Trim(a + r + b) == r
  {
    if r == [] {
      assert a + r + b == a + b;
      assert AllWhitespace(a + b) by {
        forall i | 0 <= i < |a + b| ensures IsWhitespace((a + b)[i]) {
          if i >= |a| { assert (a + b)[i] == b[i - |a|]; }
        }
      }
    } else {
      assert a + r + b == a + (r + b);
      TrimStartPadded(a, r + b);
      TrimEndPadded(r, b);
    }
  }

  /** A string without whitespace at either end is its own trim. */
  lemma TrimOfClean(s: string)
    requires s == [] || (!IsWhitespace(s[0]) && !IsWhitespace(s[|s| - 1]))
    ensures Trim(s) == s
  {
  }

  /** Trimming twice is trimming once. */
  lemma {:induction false} TrimIdempotent(s: string)
    ensures Trim(Trim(s)) == Trim(s)
  {
  }

  /** A field is truthy in `field || ...` when it is present and not the empty string. */
  predicate Truthy(field: Option<string>) {
    field.Some? && field.value != ""
  }

  /** `field || fallback` for a string-valued (possibly absent) field. */
  function Or(field: Option<string>, fallback: string): string {
    if Truthy(field) then field.value else fallback
  }
}
