/** Shortening of tool results (TruncateToolPruner and NoopToolPruner). */
module Pruning {
  import opened Transcript

  datatype Pruner = NoopPruner | TruncatePruner(maxRunes: int, ellipsis: string)

  const DEFAULT_MAX_RUNES := 20000
  const DEFAULT_ELLIPSIS := "\n…(truncated)"

  function EffectiveMax(p: Pruner): (max: int)
    requires p.TruncatePruner?
    ensures max > 0
  {
    if p.maxRunes <= 0 then DEFAULT_MAX_RUNES else p.maxRunes
  }

  function EffectiveEllipsis(p: Pruner): (e: string)
    requires p.TruncatePruner?
    ensures e != ""
  {
    if p.ellipsis == "" then DEFAULT_ELLIPSIS else p.ellipsis
  }

  function Prune(p: Pruner, m: Message): Message {
    if p.NoopPruner? || m.role != Tool then m
    else
      var max := EffectiveMax(p);
      if |m.content| <= max then m
      else
        var ell := EffectiveEllipsis(p);
        if max <= |ell| + 16 then m.(content := ell)
        else
          var cut := if max - |ell| < 1 then 1 else max - |ell|;
          m.(content := m.content[..cut] + ell)
  }

  /** Pruning is idempotent: a message that was pruned once is never changed again. */
  lemma PruneIdempotent(p: Pruner, m: Message)
    ensures Prune(p, Prune(p, m)) == Prune(p, m)
  {
  }

  /** Only the content of a tool result ever changes; a long one becomes a prefix and the
      ellipsis, and is as long as the limit unless the limit has no room for the ellipsis. */
  lemma PruneShape(p: Pruner, m: Message)
    ensures Prune(p, m) == m.(content := Prune(p, m).content)
    ensures m.role != Tool || p.NoopPruner? ==> Prune(p, m) == m
    ensures p.TruncatePruner? && m.role == Tool ==>
              var max := if p.maxRunes > 0 then p.maxRunes else 20000;
              var ell := if p.ellipsis != "" then p.ellipsis else "\n…(truncated)";
              var c := Prune(p, m).content;
              && max == EffectiveMax(p) && ell == EffectiveEllipsis(p)
              && (|m.content| <= max ==> c == m.content)
              && (|m.content| > max ==>
                    if max > |ell| + 16 then |c| == max && c[max - |ell|..] == ell && c[..max - |ell|] <= m.content else c == ell)
  {
  }

  /** The length stays within the larger of the limit and the ellipsis; it exceeds the limit
      exactly when a long result meets an ellipsis that is itself longer than the limit. */
  lemma PruneBound(p: Pruner, m: Message)
    requires p.TruncatePruner? && m.role == Tool
    ensures |Prune(p, m).content| <= EffectiveMax(p) || |Prune(p, m).content| <= |EffectiveEllipsis(p)|
    ensures |Prune(p, m).content| > EffectiveMax(p) <==>
            |m.content| > EffectiveMax(p) && |EffectiveEllipsis(p)| > EffectiveMax(p)
  {
  }

  /** Two characters over a limit of one become an ellipsis of three. */
  lemma EllipsisOverLimit()
    ensures var p, m := TruncatePruner(1, "..."), ToolMessage("", "ab");
            |m.content| == 2 && |Prune(p, m).content| == 3 > EffectiveMax(p)
  {
  }
}
