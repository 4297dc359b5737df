// The two uses of Go's fmt.Sprintf that the mock generator relies on:
// a template with exactly one "%s" verb (the struct-name and output-path
// templates) and "%d" applied to a non-negative index (the names r0, r1, ...).

module Fmt {

  /** True when `t` holds exactly one verb, "%s", and no other '%'. */
  predicate SingleVerb(t: string)
  {
    if t == [] then false
    else if t[0] == '%' then |t| >= 2 && t[1] == 's' && '%' !in t[2..]
    else SingleVerb(t[1..])
  }

  /** Position of the "%s" verb in a single-verb template. */
  function VerbIndex(t: string): (k: nat)
    requires SingleVerb(t)
    ensures k + 2 <= |t| && t[k] == '%' && t[k + 1] == 's'
    ensures '%' !in t[..k] && '%' !in t[k + 2..]
  {
    if t[0] == '%' then 0
    else
      var k' := VerbIndex(t[1..]);
      assert t[..k' + 1] == [t[0]] + t[1..][..k'];
      assert t[k' + 3..] == t[1..][k' + 2..];
      k' + 1
  }

  /** fmt.Sprintf(t, s) for a template with one "%s": the verb is replaced by
      `s`, every other character of the template is copied. */
  function Sprintf(t: string, s: string): (r: string)
    requires SingleVerb(t)
    ensures r == t[..VerbIndex(t)] + s + t[VerbIndex(t) + 2..]
  {
    if t[0] == '%' then s + t[2..]
    else
      var rest := Sprintf(t[1..], s);
      assert t[..VerbIndex(t)] == [t[0]] + t[1..][..VerbIndex(t[1..])];
      [t[0]] + rest
  }

  /** Any text without '%' around one "%s" is a single-verb template. */
  lemma {:induction false} SingleVerbSplice(pre: string, post: string)
    requires '%' !in pre && '%' !in post
    ensures SingleVerb(pre + "%s" + post)
  {
    var t := pre + "%s" + post;
    if pre == [] {
      assert t[2..] == post;
    } else {
      assert pre[0] in pre;
      assert t[1..] == pre[1..] + "%s" + post;
      assert '%' !in pre[1..] by {
        forall ch | ch in pre[1..] ensures ch in pre { }
      }
      SingleVerbSplice(pre[1..], post);
    }
  }

  /** Formatting such a template splices the argument between its two parts. */
  lemma SprintfSplice(pre: string, post: string, s: string)
    requires '%' !in pre && '%' !in post
    ensures SingleVerb(pre + "%s" + post)
    ensures Sprintf(pre + "%s" + post, s) == pre + s + post
  {
    var t := pre + "%s" + post;
    SingleVerbSplice(pre, post);
    var k := VerbIndex(t);
    assert t[..k] == pre && t[k + 2..] == post;
  }

  // ---------------------------------------------------------------------
  // "%d" on a non-negative int

  function Digit(d: nat): (ch: char)
    requires d < 10
    ensures '0' <= ch <= '9'
  {
    ('0' as int + d) as char
  }

  function DigitValue(ch: char): (d: nat)
    requires '0' <= ch <= '9'
    ensures d < 10
  {
    ch as int - '0' as int
  }

  predicate IsDigits(s: string)
  {
    forall i :: 0 <= i < |s| ==> '0' <= s[i] <= '9'
  }

  /** fmt.Sprintf("%d", n) for n >= 0: decimal digits, no leading zero. */
  function Decimal(n: nat): (r: string)
    ensures |r| >= 1 && IsDigits(r)
    ensures |r| > 1 ==> r[0] != '0'
    decreases n
  {
    if n < 10 then [Digit(n)] else Decimal(n / 10) + [Digit(n % 10)]
  }

  /** Reads a digit string back as a number (the partner of Decimal). */
  function ParseDecimal(s: string): (n: nat)
    requires IsDigits(s)
    decreases |s|
  {
    if s == [] then 0
    else 10 * ParseDecimal(s[..|s| - 1]) + DigitValue(s[|s| - 1])
  }

  lemma {:induction false} DecimalRoundTrip(n: nat)
    ensures ParseDecimal(Decimal(n)) == n
    decreases n
  {
    var r := Decimal(n);
    if n < 10 {
      assert r[..0] == [];
    } else {
      DecimalRoundTrip(n / 10);
      assert r[..|r| - 1] == Decimal(n / 10);
    }
  }

  /** Different indices print differently. */
  lemma DecimalInjective(m: nat, n: nat)
    requires Decimal(m) == Decimal(n)
    ensures m == n
  {
    DecimalRoundTrip(m);
    DecimalRoundTrip(n);
  }
}
