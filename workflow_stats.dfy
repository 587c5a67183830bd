/**
 * The per-workflow statistics cards (components/WorkflowStats.tsx): the
 * whole-percent success rate, the progress bar's colour and width, and the
 * status icon.
 */
module WorkflowStatsCards {
  import opened Common
  import opened Types
  import opened Utils
  import DesignTokens

  /**
   * The stored 24-hour rate rounded to a whole percent when the view has
   * one; otherwise successes over executions as a rounded percentage, 0
   * when there were no executions.
   */
  function CalculateSuccessRate(stats: WorkflowStats): (rate: int)
    ensures stats.successRate24h.Some? ==> rate == Round(stats.successRate24h.value)
    ensures stats.successRate24h.None? && OrElse(stats.executions24h, 0.0) == 0.0 ==> rate == 0
    ensures stats.successRate24h.None? && 0.0 <= OrElse(stats.success24h, 0.0) <= OrElse(stats.executions24h, 0.0) ==>
      0 <= rate <= 100
  {
    if stats.successRate24h.Some? then Round(stats.successRate24h.value)
    else
      var total := OrElse(stats.executions24h, 0.0);
      var successful := OrElse(stats.success24h, 0.0);
      if total == 0.0 then 0
      else
        var rate := Round(successful / total * 100.0);
        assert 0.0 <= successful <= total ==> 0 <= rate <= 100 by {
          if 0.0 <= successful <= total {
            RatioBounds(successful, total);
          }
        }
        rate
  }

  lemma RatioBounds(successful: real, total: real)
    requires 0.0 <= successful <= total && total != 0.0
    ensures 0 <= Round(successful / total * 100.0) <= 100
  {
    assert successful / total <= 1.0 by {
      assert successful / total * total == successful;
    }
  }

  /** The counted rate is within half a percent of the exact share of successes. */
  lemma CountedRateIsNearest(stats: WorkflowStats)
    requires stats.successRate24h.None? && stats.executions24h.Some? && stats.executions24h.value != 0.0
    ensures var exact := OrElse(stats.success24h, 0.0) / stats.executions24h.value * 100.0;
            exact - 0.5 < CalculateSuccessRate(stats) as real <= exact + 0.5
  {
  }

  /**
   * The bar colour: green from 95 (the separate branch from 99 up gives the
   * same green), yellow from 90, red below.
   */
  function GetHealthColor(rate: real): (tone: Health)
    ensures tone == Healthy <==> rate >= 95.0
    ensures tone == NeedsAttention <==> 90.0 <= rate < 95.0
    ensures tone == Critical <==> rate < 90.0
  {
    if rate >= 99.0 then Healthy
    else if rate >= 95.0 then Healthy
    else if rate >= 90.0 then NeedsAttention
    else Critical
  }

  /** The palette entry of a tone: the default green, yellow or red. */
  function ToneHex(tone: Health): string {
    match tone
    case Healthy => DesignTokens.MainDefault[3].hex
    case NeedsAttention => DesignTokens.MainDefault[4].hex
    case Critical => DesignTokens.MainDefault[5].hex
  }

  /** The status icon: a check for a healthy rate, an alert otherwise, coloured like its status. */
  datatype Icon = Check(tone: Health) | Alert(tone: Health)

  function GetStatusIndicator(rate: real): (icon: Icon)
    ensures icon.Check? <==> GetHealthStatus(rate) == Healthy
    ensures icon.tone == GetHealthStatus(rate)
  {
    match GetHealthStatus(rate)
    case Healthy => Check(Healthy)
    case NeedsAttention => Alert(NeedsAttention)
    case Critical => Alert(Critical)
  }

  /** The bar and the icon of one card always show the same colour. */
  lemma BarMatchesIcon(rate: real)
    ensures GetHealthColor(rate) == GetStatusIndicator(rate).tone
  {
  }

  /** The progress bar's width in percent: the rate, capped at 100. */
  function ProgressWidth(rate: int): (width: int)
    ensures width <= 100
    ensures width == rate || width == 100
    ensures rate <= 100 ==> width == rate
  {
    MinInt(rate, 100)
  }

  /** A rate counted from consistent totals is never capped. */
  lemma CountedRateNeedsNoCap(stats: WorkflowStats)
    requires stats.successRate24h.None?
    requires 0.0 <= OrElse(stats.success24h, 0.0) <= OrElse(stats.executions24h, 0.0)
    ensures ProgressWidth(CalculateSuccessRate(stats)) == CalculateSuccessRate(stats)
  {
  }
}
