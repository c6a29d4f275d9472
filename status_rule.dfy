/**
 * The status a device takes after a command completes, as `X10API.cmdDone`
 * computes it from the command and the device's current status.
 */
module StatusRule {

  /** A device status: an integer level, a text such as 'off', or None. */
  datatype Status = IntStatus(n: int) | StrStatus(s: string) | NoStatus

  /**
   * The value the rule compares against the command names. Python compares
   * it with `==`: a `str` equals a literal when the texts agree, any other
   * value (such as a dict) never equals a `str` literal.
   */
  datatype Operand = Str(s: string) | NonStr

  /** The final clamp: an integer status is brought into [0, 100]; anything else is left alone. */
  function Clamp(s: Status): (r: Status)
    ensures r.IntStatus? <==> s.IntStatus?
    ensures r.IntStatus? ==> 0 <= r.n <= 100
    ensures !s.IntStatus? ==> r == s
    ensures s.IntStatus? && 0 <= s.n <= 100 ==> r == s
    ensures s.IntStatus? && s.n > 100 ==> r.n == 100
    ensures s.IntStatus? && s.n < 0 ==> r.n == 0
  {
    match s
    case IntStatus(n) => if n > 100 then IntStatus(100) else if n < 0 then IntStatus(0) else s
    case _ => s
  }

  /**
   * The rule as written: 'on' gives 100, 'off' gives 'off', 'dim' lowers an
   * integer status by 12 (88 when it is not an integer), 'bright' raises it
   * by 12 (100 when it is not an integer), anything else gives None; an
   * integer result is then clamped.
   */
  function NewStatus(tempcmd: Operand, current: Status): (r: Status)
    ensures r.IntStatus? ==> 0 <= r.n <= 100
    ensures r.StrStatus? ==> r == StrStatus("off")
    ensures r == NoStatus <==> tempcmd !in {Str("on"), Str("off"), Str("dim"), Str("bright")}
  {
    var raw :=
      if tempcmd == Str("on") then IntStatus(100)
      else if tempcmd == Str("off") then StrStatus("off")
      else if tempcmd == Str("dim") then
        (if current.IntStatus? then IntStatus(current.n - 12) else IntStatus(88))
      else if tempcmd == Str("bright") then
        (if current.IntStatus? then IntStatus(current.n + 12) else IntStatus(100))
      else NoStatus;
    Clamp(raw)
  }

  /** The level steps: dim and bright move a level by 12 within [0, 100], and fall back to 88 and 100. */
  lemma LevelSteps(current: Status)
    ensures NewStatus(Str("on"), current) == IntStatus(100)
    ensures NewStatus(Str("off"), current) == StrStatus("off")
    ensures !current.IntStatus? ==> NewStatus(Str("dim"), current) == IntStatus(88)
    ensures !current.IntStatus? ==> NewStatus(Str("bright"), current) == IntStatus(100)
    ensures current.IntStatus? && 12 <= current.n <= 112 ==> NewStatus(Str("dim"), current) == IntStatus(current.n - 12)
    ensures current.IntStatus? && -12 <= current.n <= 88 ==> NewStatus(Str("bright"), current) == IntStatus(current.n + 12)
    ensures current.IntStatus? ==> NewStatus(Str("dim"), current).n <= current.n || current.n < 0
    ensures current.IntStatus? ==> NewStatus(Str("bright"), current).n >= current.n || current.n > 100
  {
  }

  /** Within [12, 88], bright undoes dim and dim undoes bright. */
  lemma DimBrightInverse(n: int)
    requires 12 <= n <= 88
    ensures NewStatus(Str("bright"), NewStatus(Str("dim"), IntStatus(n))) == IntStatus(n)
    ensures NewStatus(Str("dim"), NewStatus(Str("bright"), IntStatus(n))) == IntStatus(n)
  {
  }

  /** The status after the same command is applied `k` times. */
  function Repeat(tempcmd: Operand, k: nat, s: Status): Status {
    if k == 0 then s else Repeat(tempcmd, k - 1, NewStatus(tempcmd, s))
  }

  /** Dimming an integer level `n` at least n/12 times ends at exactly 0. */
  lemma {:induction false} RepeatedDimReachesZero(k: nat, n: int)
    requires 0 <= n <= 12 * k
    ensures Repeat(Str("dim"), k, IntStatus(n)) == IntStatus(0)
  {
    if k > 0 {
      var next := NewStatus(Str("dim"), IntStatus(n));
      assert next.IntStatus? && 0 <= next.n <= 12 * (k - 1);
      RepeatedDimReachesZero(k - 1, next.n);
    }
  }

  /** Brightening an integer level `n` at least (100 - n)/12 times ends at exactly 100. */
  lemma {:induction false} RepeatedBrightReachesFull(k: nat, n: int)
    requires n <= 100 && 100 - n <= 12 * k
    ensures Repeat(Str("bright"), k, IntStatus(n)) == IntStatus(100)
  {
    if k > 0 {
      var next := NewStatus(Str("bright"), IntStatus(n));
      assert next.IntStatus? && 100 - next.n <= 12 * (k - 1);
      RepeatedBrightReachesFull(k - 1, next.n);
    }
  }

  /** A value that is not a `str` matches none of the names: the result is None whatever the status. */
  lemma NonStrMatchesNothing(current: Status)
    ensures NewStatus(NonStr, current) == NoStatus
  {
  }

  /** The rule as written ignores "brighten", the name the function table uses. */
  lemma BrightenIgnored()
    ensures NewStatus(Str("brighten"), IntStatus(50)) == NoStatus
  {
  }

  /** The rule with "brighten" accepted as the name of the bright step. */
  function IntendedNewStatus(tempcmd: Operand, current: Status): (r: Status)
    ensures r.IntStatus? ==> 0 <= r.n <= 100
    ensures tempcmd != Str("brighten") ==> r == NewStatus(tempcmd, current)
    ensures r == NoStatus <==> tempcmd !in {Str("on"), Str("off"), Str("dim"), Str("bright"), Str("brighten")}
  {
    NewStatus(if tempcmd == Str("brighten") then Str("bright") else tempcmd, current)
  }

  /** With the correction, "brighten" raises a level by 12 and falls back to 100. */
  lemma IntendedBrighten(current: Status)
    ensures !current.IntStatus? ==> IntendedNewStatus(Str("brighten"), current) == IntStatus(100)
    ensures current.IntStatus? && -12 <= current.n <= 88 ==>
      IntendedNewStatus(Str("brighten"), current) == IntStatus(current.n + 12)
    ensures current.IntStatus? && current.n > 88 ==> IntendedNewStatus(Str("brighten"), current) == IntStatus(100)
  {
  }
}
