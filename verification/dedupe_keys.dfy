/** The key under which the executor records that it ran a command. */
module DedupeKeys {
  import opened Model

  function Digit(n: nat): char
    requires n < 10
  {
    ['0', '1', '2', '3', '4', '5', '6', '7', '8', '9'][n]
  }

  function NatString(n: nat): string {
    if n < 10 then [Digit(n)] else NatString(n / 10) + [Digit(n % 10)]
  }

  // The number a string of digits stands for.
  function NatValue(s: string): nat {
    if s == [] then 0 else 10 * NatValue(s[..|s| - 1]) + if '0' <= s[|s| - 1] <= '9' then (s[|s| - 1] - '0') as nat else 0
  }

  lemma {:induction false} NatStringMeans(n: nat)
    ensures NatValue(NatString(n)) == n && NatString(n) != [] && (n > 0 ==> NatString(n)[0] != '0')
  {
    if n >= 10 {
      NatStringMeans(n / 10);
      assert NatString(n)[..|NatString(n)| - 1] == NatString(n / 10);
    }
  }

  // fmt's %d.
  function IntString(n: int): string {
    if n < 0 then "-" + NatString(-n) else NatString(n)
  }

  function Key(id: Id, triggerTime: int): string {
    "flash_job:exec_dedupe:" + id + ":" + IntString(triggerTime)
  }

  lemma DigitsDiffer(a: nat, b: nat)
    requires a < 10 && b < 10 && Digit(a) == Digit(b)
    ensures a == b && Digit(a) != '-' && Digit(a) != ':'
  {
  }

  lemma {:induction false} NatStringIsDigits(n: nat)
    ensures '-' !in NatString(n) && ':' !in NatString(n) && |NatString(n)| > 0
  {
    DigitsDiffer(n % 10, n % 10);
    if n >= 10 {
      NatStringIsDigits(n / 10);
    }
  }

  lemma {:induction false} NatStringInjective(a: nat, b: nat)
    requires NatString(a) == NatString(b)
    ensures a == b
  {
    var s, t := NatString(a), NatString(b);
    assert s[|s| - 1] == Digit(a % 10) && t[|t| - 1] == Digit(b % 10);
    DigitsDiffer(a % 10, b % 10);
    NatStringIsDigits(a / 10);
    NatStringIsDigits(b / 10);
    if a >= 10 && b >= 10 {
      assert s[..|s| - 1] == NatString(a / 10) && t[..|t| - 1] == NatString(b / 10);
      NatStringInjective(a / 10, b / 10);
    }
  }

  lemma IntStringInjective(a: int, b: int)
    requires IntString(a) == IntString(b)
    ensures a == b
  {
    NatStringIsDigits(if a < 0 then -a else a);
    NatStringIsDigits(if b < 0 then -b else b);
    assert IntString(a)[0] == '-' <==> a < 0;
    assert IntString(b)[0] == '-' <==> b < 0;
    if a < 0 {
      assert IntString(a)[1..] == NatString(-a) && IntString(b)[1..] == NatString(-b);
      NatStringInjective(-a, -b);
    } else {
      NatStringInjective(a, b);
    }
  }

  predicate LastColon(k: string, p: int) {
    0 <= p < |k| && k[p] == ':' && forall i :: p < i < |k| ==> k[i] != ':'
  }

  lemma KeyLastColon(id: Id, t: int)
    ensures var k, x := Key(id, t), IntString(t); LastColon(k, |k| - |x| - 1)
    ensures Key(id, t)[|Key(id, t)| - |IntString(t)|..] == IntString(t)
    ensures Key(id, t)[22..|Key(id, t)| - |IntString(t)| - 1] == id
  {
    var k, x := Key(id, t), IntString(t);
    NatStringIsDigits(if t < 0 then -t else t);
    assert k == ("flash_job:exec_dedupe:" + id + ":") + x;
    assert forall i :: |k| - |x| <= i < |k| ==> k[i] == x[i - (|k| - |x|)] && x[i - (|k| - |x|)] in x;
  }

  // A job id may hold colons; the last colon of a key is still the one before the trigger time.
  lemma KeyInjective(id1: Id, t1: int, id2: Id, t2: int)
    requires Key(id1, t1) == Key(id2, t2)
    ensures id1 == id2 && t1 == t2
  {
    KeyLastColon(id1, t1);
    KeyLastColon(id2, t2);
    assert |IntString(t1)| == |IntString(t2)|;
    IntStringInjective(t1, t2);
  }
}
