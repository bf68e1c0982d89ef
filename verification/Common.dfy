/** Shared vocabulary of the orchestrator and media models. */
module Common {
  datatype Option<+T> = None | Some(value: T)

  /** The task lifecycle states that reach a public status field. */
  datatype Status =
    | Received | Pending | Queued | InProgress | Paused
    | Done | Error | Canceled | Skipped | Rejected

  predicate Terminal(s: Status) {
    s.Done? || s.Error? || s.Canceled? || s.Skipped? || s.Rejected?
  }

  const NO_ERROR := ""
  const DUPLICATE_TASK_ID := "DUPLICATE_TASK_ID"
  const POLICY_REJECTED := "POLICY_REJECTED"
  const RESOURCE_CONFLICT := "RESOURCE_CONFLICT"
  const TASK_DATA_PARSING_FAILED := "TASK_DATA_PARSING_FAILED"
  const TASK_TIMEOUT := "TASK_TIMEOUT"
  const DEADLINE_EXCEEDED := "DEADLINE_EXCEEDED"
  const INTERNAL_ERROR := "INTERNAL_ERROR"
  const UNKNOWN_TASK := "UNKNOWN_TASK"
  const UNSUPPORTED := "UNSUPPORTED"
  const SERVER_UNAVAILABLE := "SERVER_UNAVAILABLE"
  const TASK_START_FAILED := "TASK_START_FAILED"

  function Max(a: int, b: int): int {
    if a < b then b else a
  }

  function Min(a: int, b: int): int {
    if a < b then a else b
  }

  function Elements<T>(s: seq<T>): set<T> {
    set x | x in s
  }

  ghost predicate Distinct<T>(s: seq<T>) {
    forall i, j :: 0 <= i < j < |s| ==> s[i] != s[j]
  }

  /** Decimal digits. */
  function Digits(n: nat): (r: string)
    ensures |r| >= 1 && (|r| == 1 <==> n < 10)
  {
    if n < 10 then [DigitChar(n)] else Digits(n / 10) + [DigitChar(n % 10)]
  }

  function DigitChar(d: nat): char
    requires d < 10
  {
    "0123456789"[d]
  }

  /** The number that digits stand for. */
  ghost function NumberOf(s: string): nat
    requires AllDigits(s)
  {
    if s == "" then 0 else 10 * NumberOf(s[..|s| - 1]) + (s[|s| - 1] - '0') as nat
  }

  predicate AllDigits(s: string) {
    forall i :: 0 <= i < |s| ==> '0' <= s[i] <= '9'
  }

  /** Digits writes the number, without leading zeros. */
  lemma {:induction false} DigitsRead(n: nat)
    ensures AllDigits(Digits(n)) && NumberOf(Digits(n)) == n && (Digits(n)[0] == '0' ==> n == 0)
  {
    var s := Digits(n);
    DigitCharReads(n % 10);
    if n >= 10 {
      DigitsRead(n / 10);
      assert s[..|s| - 1] == Digits(n / 10);
    } else {
      assert s[..|s| - 1] == "";
    }
  }

  lemma {:induction false} DigitCharReads(d: nat)
    requires d < 10
    ensures '0' <= DigitChar(d) <= '9' && (DigitChar(d) - '0') as nat == d
  {
  }
}
