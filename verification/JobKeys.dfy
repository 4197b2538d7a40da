/** The idempotency key of an occurrence, `job-{id}-{second}`, and why no two occurrences share one. */
module JobKeys {
  const DIGITS: string := "0123456789"

  function Decimal(n: nat): string {
    if n < 10 then [DIGITS[n]] else Decimal(n / 10) + [DIGITS[n % 10]]
  }

  function KeyOf(job: string, second: nat): string {
    "job-" + job + "-" + Decimal(second)
  }

  predicate IsJobKey(key: string) {
    "job-" <= key
  }

  lemma {:induction false} DecimalHasNoDash(n: nat)
    ensures |Decimal(n)| > 0 && forall i | 0 <= i < |Decimal(n)| :: Decimal(n)[i] != '-'
  {
    if n >= 10 {
      DecimalHasNoDash(n / 10);
    }
  }

  lemma {:induction false} DecimalIsInjective(m: nat, n: nat)
    requires Decimal(m) == Decimal(n)
    ensures m == n
  {
    LastDigit(m);
    LastDigit(n);
    if m >= 10 && n >= 10 {
      assert Decimal(m)[..|Decimal(m)| - 1] == Decimal(m / 10);
      assert Decimal(n)[..|Decimal(n)| - 1] == Decimal(n / 10);
      DecimalIsInjective(m / 10, n / 10);
    } else if m >= 10 {
      DecimalHasNoDash(m / 10);
    } else if n >= 10 {
      DecimalHasNoDash(n / 10);
    }
  }

  lemma LastDigit(n: nat)
    ensures |Decimal(n)| > 0 && Decimal(n)[|Decimal(n)| - 1] == DIGITS[n % 10]
  {
  }

  lemma NoLaterDash(prefix: string, second: nat)
    ensures var key := prefix + "-" + Decimal(second); forall p | |prefix| < p < |key| :: key[p] != '-'
  {
    DecimalHasNoDash(second);
    var key := prefix + "-" + Decimal(second);
    forall p | |prefix| < p < |key| ensures key[p] != '-' {
      assert key[p] == Decimal(second)[p - |prefix| - 1];
    }
  }

  /** A key names its job and its second, even when a job id contains dashes. */
  lemma KeyIsInjective(job: string, second: nat, job': string, second': nat)
    requires KeyOf(job, second) == KeyOf(job', second')
    ensures job == job' && second == second'
  {
    var key, p, p' := KeyOf(job, second), "job-" + job, "job-" + job';
    assert key == p + "-" + Decimal(second) && key == p' + "-" + Decimal(second');
    assert key[|p|] == '-' && key[|p'|] == '-';
    NoLaterDash(p, second);
    NoLaterDash(p', second');
    assert p == key[..|p|] && p' == key[..|p'|];
    assert job == p[4..] && job' == p'[4..];
    assert Decimal(second) == key[|p| + 1..];
    assert Decimal(second') == key[|p'| + 1..];
    DecimalIsInjective(second, second');
  }
}
