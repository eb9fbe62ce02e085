/**
 * Header maps as net/http keeps them: every name is stored under its
 * canonical MIME form, so names that differ only in ASCII case address
 * the same entry.
 */
module Http {
  type Header = map<string, string>

  /** The characters of an RFC 7230 token, the only ones net/http canonicalises. */
  predicate IsTokenChar(c: char) {
    || 'a' <= c <= 'z' || 'A' <= c <= 'Z' || '0' <= c <= '9'
    || c in "!#$%&'*+-.^_`|~"
  }

  predicate IsToken(s: string) {
    forall i | 0 <= i < |s| :: IsTokenChar(s[i])
  }

  function ToLower(c: char): char {
    if 'A' <= c <= 'Z' then (c as int + 32) as char else c
  }

  /** One character of canonical form: upper case at the start of a word, lower case inside it. */
  function CaseAt(c: char, upper: bool): char {
    if upper && 'a' <= c <= 'z' then (c as int - 32) as char
    else if !upper && 'A' <= c <= 'Z' then (c as int + 32) as char
    else c
  }

  /** Canonical form of s; `upper` says whether s starts a word (the start of the name or after '-'). */
  function Canon(s: string, upper: bool): (r: string)
    ensures |r| == |s|
    decreases |s|
  {
    if s == [] then [] else
    var d := CaseAt(s[0], upper);
    [d] + Canon(s[1..], d == '-')
  }

  /** textproto.CanonicalMIMEHeaderKey: names with a non-token character are left as they are. */
  function CanonicalHeaderKey(s: string): string {
    if IsToken(s) then Canon(s, true) else s
  }

  /** Canonical form only changes the case of letters. */
  lemma {:induction false} CanonFoldsToSame(s: string, upper: bool)
    ensures forall i | 0 <= i < |s| :: ToLower(Canon(s, upper)[i]) == ToLower(s[i])
    ensures IsToken(s) ==> IsToken(Canon(s, upper))
    decreases |s|
  {
    if s != [] {
      CanonFoldsToSame(s[1..], CaseAt(s[0], upper) == '-');
      var r := Canon(s, upper);
      assert r[1..] == Canon(s[1..], CaseAt(s[0], upper) == '-');
      forall i | 0 <= i < |s| ensures ToLower(r[i]) == ToLower(s[i]) {
        if i > 0 { assert r[i] == r[1..][i - 1] && s[i] == s[1..][i - 1]; }
      }
      if IsToken(s) {
        forall i | 0 <= i < |r| ensures IsTokenChar(r[i]) {
          if i > 0 { assert r[i] == r[1..][i - 1] && IsTokenChar(s[1..][i - 1]); }
          else { assert IsTokenChar(s[0]); }
        }
      }
    }
  }

  /** Names that agree up to ASCII case have the same canonical form. */
  lemma {:induction false} CanonIgnoresCase(s: string, t: string, upper: bool)
    requires |s| == |t|
    requires forall i | 0 <= i < |s| :: ToLower(s[i]) == ToLower(t[i])
    ensures Canon(s, upper) == Canon(t, upper)
    decreases |s|
  {
    if s != [] {
      assert ToLower(s[0]) == ToLower(t[0]);
      assert CaseAt(s[0], upper) == CaseAt(t[0], upper);
      forall i | 0 <= i < |s[1..]| ensures ToLower(s[1..][i]) == ToLower(t[1..][i]) {
        assert ToLower(s[i + 1]) == ToLower(t[i + 1]);
      }
      CanonIgnoresCase(s[1..], t[1..], CaseAt(s[0], upper) == '-');
    }
  }

  /** Canonicalising twice is canonicalising once. */
  lemma {:induction false} CanonIdempotent(s: string, upper: bool)
    ensures Canon(Canon(s, upper), upper) == Canon(s, upper)
    decreases |s|
  {
    if s != [] {
      var d := CaseAt(s[0], upper);
      assert CaseAt(d, upper) == d;
      var r := Canon(s, upper);
      assert r[0] == d && r[1..] == Canon(s[1..], d == '-');
      CanonIdempotent(s[1..], d == '-');
    }
  }

  /**
   * The header key net/http stores a name under: every spelling of a
   * token name in any ASCII case lands on the same key, and the key of a
   * key is itself.
   */
  lemma CanonicalHeaderKeySpec(s: string, t: string)
    ensures CanonicalHeaderKey(CanonicalHeaderKey(s)) == CanonicalHeaderKey(s)
    ensures IsToken(s) && |s| == |t| && (forall i | 0 <= i < |s| :: ToLower(s[i]) == ToLower(t[i])) ==>
              CanonicalHeaderKey(s) == CanonicalHeaderKey(t)
  {
    CanonFoldsToSame(s, true);
    CanonIdempotent(s, true);
    if IsToken(s) && |s| == |t| && (forall i | 0 <= i < |s| :: ToLower(s[i]) == ToLower(t[i])) {
      assert IsToken(t) by {
        forall i | 0 <= i < |t| ensures IsTokenChar(t[i]) {
          assert IsTokenChar(s[i]) && ToLower(s[i]) == ToLower(t[i]);
        }
      }
      CanonIgnoresCase(s, t, true);
    }
  }
}
