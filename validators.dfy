/** Angular's built-in form validators, stated as predicates on a control's
    string value. Angular treats an empty value as valid for every validator
    except `required`, so a field that must be filled carries both. */
module Validators {

  /** `value.length` in JavaScript: the number of UTF-16 code units, so a
      character outside the Basic Multilingual Plane (from U+10000 on) counts
      twice. */
  function Utf16Length(s: string): (n: nat)
    ensures |s| <= n <= 2 * |s|
    ensures (forall i :: 0 <= i < |s| ==> (s[i] as int) < 0x10000) ==> n == |s|
  {
    if s == [] then 0 else (if (s[0] as int) < 0x10000 then 1 else 2) + Utf16Length(s[1..])
  }

  /** Code units add up over concatenation. */
  lemma {:induction false} Utf16LengthConcat(a: string, b: string)
    ensures Utf16Length(a + b) == Utf16Length(a) + Utf16Length(b)
  {
    if a == [] {
      assert a + b == b;
    } else {
      assert (a + b)[0] == a[0];
      assert (a + b)[1..] == a[1..] + b;
      Utf16LengthConcat(a[1..], b);
    }
  }

  /** `Validators.required` */
  predicate Required(v: string) { v != "" }

  /** `Validators.minLength(n)`: empty values pass; the length is `value.length`. */
  predicate MinLength(v: string, n: nat) { v == "" || Utf16Length(v) >= n }

  /** `Validators.maxLength(n)`, on `value.length`. */
  predicate MaxLength(v: string, n: nat) { Utf16Length(v) <= n }

  /** `Validators.email`: empty values pass; otherwise a non-empty local part,
      an '@' and a non-empty domain (the shape Angular's pattern demands). */
  predicate Email(v: string) {
    v == "" || exists i :: 0 < i < |v| - 1 && v[i] == '@'
  }

  /** A filled-in field with a minimum length has at least that many code units,
      and so at least half that many characters. */
  lemma RequiredMinLength(v: string, n: nat)
    requires Required(v) && MinLength(v, n)
    ensures Utf16Length(v) >= n && 2 * |v| >= n
  {
  }

  /** One emoji is two code units: it meets a two-character minimum on its own,
      and a text of n such characters breaks a maximum of 2n - 1. */
  lemma AstralCharactersCountTwice(c: char, k: nat)
    requires (c as int) >= 0x10000
    ensures MinLength([c], 2)
    ensures k > 0 ==> !MaxLength(seq(k, _ => c), 2 * k - 1)
  {
    assert Utf16Length([c]) == 2 + Utf16Length([]);
    if k > 0 {
      AstralRunLength(c, k);
    }
  }

  lemma {:induction false} AstralRunLength(c: char, k: nat)
    requires (c as int) >= 0x10000
    ensures Utf16Length(seq(k, _ => c)) == 2 * k
  {
    if k > 0 {
      assert seq(k, _ => c) == [c] + seq(k - 1, _ => c);
      Utf16LengthConcat([c], seq(k - 1, _ => c));
      assert Utf16Length([c]) == 2 + Utf16Length([]);
      AstralRunLength(c, k - 1);
    }
  }
}
