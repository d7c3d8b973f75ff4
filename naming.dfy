/**
 * The naming conventions shared by every predictor: `short_name`, the
 * abbreviation used in result rows and experiment identifiers.
 */
module Naming {
  import opened Registry

  predicate IsUpper(c: char)
  {
    'A' <= c <= 'Z'
  }

  /** `re.sub('[^A-Z]', '', s)`: the upper-case ASCII letters of `s`, in order. */
  function UpperOnly(s: string): (r: string)
    ensures forall i :: 0 <= i < |r| ==> IsUpper(r[i])
    ensures |r| <= |s|
  {
    if s == [] then []
    else (if IsUpper(s[0]) then [s[0]] else []) + UpperOnly(s[1..])
  }

  /**
   * `UpperOnly` keeps order across concatenation; together with its action on
   * a single character this pins it down as "the upper-case letters, in the
   * order they appear".
   */
  lemma {:induction false} UpperOnlyAppend(a: string, b: string)
    ensures UpperOnly(a + b) == UpperOnly(a) + UpperOnly(b)
  {
    if a == [] {
      assert a + b == b;
    } else {
      assert (a + b)[0] == a[0];
      assert (a + b)[1..] == a[1..] + b;
      UpperOnlyAppend(a[1..], b);
    }
  }

  /** A single character is kept when it is an upper-case letter and dropped otherwise. */
  lemma UpperOnlySingle(c: char)
    ensures UpperOnly([c]) == if IsUpper(c) then [c] else []
  {
    assert [c][1..] == [];
  }

  /** A string without upper-case letters filters to nothing: other characters are dropped, not replaced. */
  lemma {:induction false} UpperOnlyNoUpper(s: string)
    requires forall i :: 0 <= i < |s| ==> !IsUpper(s[i])
    ensures UpperOnly(s) == []
  {
    if s != [] {
      UpperOnlyNoUpper(s[1..]);
    }
  }

  /** Filtering an already filtered name changes nothing. */
  lemma {:induction false} UpperOnlyIdempotent(s: string)
    ensures UpperOnly(UpperOnly(s)) == UpperOnly(s)
  {
    if s != [] {
      var head := if IsUpper(s[0]) then [s[0]] else [];
      UpperOnlyAppend(head, UpperOnly(s[1..]));
      UpperOnlyIdempotent(s[1..]);
    }
  }

  /**
   * The filter leaves a string alone exactly when it consists of upper-case
   * letters only, so it drops every other character and nothing else.
   */
  lemma {:induction false} UpperOnlyFixed(s: string)
    ensures UpperOnly(s) == s <==> forall i :: 0 <= i < |s| ==> IsUpper(s[i])
  {
    if s != [] {
      UpperOnlyFixed(s[1..]);
      if forall i :: 0 <= i < |s| ==> IsUpper(s[i]) {
        assert forall i :: 0 <= i < |s[1..]| ==> IsUpper(s[1..][i]);
        assert s == [s[0]] + s[1..];
      }
    }
  }

  /** `short_name`: the upper-case letters of the class name. */
  function ShortName(k: Kind): (r: string)
    ensures forall i :: 0 <= i < |r| ==> IsUpper(r[i])
  {
    UpperOnly(ClassName(k))
  }
}
