/** The idempotency keys `user:plan:window` of backend/billing/engine.py, and why they do not collide. */
module IdempotencyKeys {

  const WINDOW_SECONDS := 3600

  function DecimalText(n: nat): (text: string)
    ensures text != "" && forall i | 0 <= i < |text| :: '0' <= text[i] <= '9'
  {
    var digit := [('0' as int + n % 10) as char];
    if n < 10 then digit else DecimalText(n / 10) + digit
  }

  function IdemKey(userId: string, planId: string, now: nat): string {
    userId + ":" + planId + ":" + DecimalText(now / WINDOW_SECONDS)
  }

  /** The number that a text of digits writes. */
  function DecimalValue(text: string): int {
    if text == "" then 0
    else DecimalValue(text[..|text| - 1]) * 10 + (text[|text| - 1] as int - '0' as int)
  }

  lemma {:induction false} DecimalReads(n: nat)
    ensures DecimalValue(DecimalText(n)) == n
  {
    var s := DecimalText(n);
    if n >= 10 {
      assert s[..|s| - 1] == DecimalText(n / 10);
      DecimalReads(n / 10);
    } else {
      assert s[..|s| - 1] == "";
    }
  }

  lemma DecimalTextInjective(a: nat, b: nat)
    requires DecimalText(a) == DecimalText(b)
    ensures a == b
  {
    DecimalReads(a);
    DecimalReads(b);
  }

  /** A text splits at its last colon in one way only. */
  lemma LastColonUnique(a: string, b: string, c: string, d: string)
    requires ':' !in b && ':' !in d
    requires a + ":" + b == c + ":" + d
    ensures a == c && b == d
  {
    var whole := a + ":" + b;
    assert whole[|a|] == ':' && whole[|c|] == ':';
    assert forall i | |a| < i < |whole| :: whole[i] == b[i - |a| - 1];
    assert forall i | |c| < i < |whole| :: whole[i] == d[i - |c| - 1];
    assert a == whole[..|a|] && c == whole[..|c|];
    assert b == whole[|a| + 1..] && d == whole[|c| + 1..];
  }

  /** Equal keys name the same user, plan and hour, whatever characters the user id contains. */
  lemma IdemKeyInjective(u: string, p: string, t: nat, u': string, p': string, t': nat)
    requires ':' !in p && ':' !in p'
    requires IdemKey(u, p, t) == IdemKey(u', p', t')
    ensures u == u' && p == p' && t / 3600 == t' / 3600
  {
    var w, w' := DecimalText(t / WINDOW_SECONDS), DecimalText(t' / WINDOW_SECONDS);
    LastColonUnique(u + ":" + p, w, u' + ":" + p', w');
    LastColonUnique(u, p, u', p');
    DecimalTextInjective(t / WINDOW_SECONDS, t' / WINDOW_SECONDS);
  }
}
