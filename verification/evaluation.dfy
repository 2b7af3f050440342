/** The final evaluation: the level tier and the pass/fail verdict computed from the
    learner's score, the text posted to the evaluation channel, and the progress bar. */
module Evaluation {

  /** The score of a perfect play (the denominator of the percentage). */
  const TotalScore := 18

  /** The score needed to pass the course and emit the completion signal. */
  const PassingScore := 14

  datatype Level = EnProceso | LogroParcial | LogroEsperado

  /** The percentage of the total, computed exactly. */
  function Percentage(score: int): real {
    (score as real / TotalScore as real) * 100.0
  }

  /** The level tier: below 50% "En proceso", below 80% "Logro parcial", otherwise
      "Logro esperado". Stated as exact integer comparisons. */
  function LevelOf(score: int): (level: Level)
    ensures level == EnProceso <==> score * 100 < 50 * TotalScore
    ensures level == LogroParcial <==> 50 * TotalScore <= score * 100 < 80 * TotalScore
    ensures level == LogroEsperado <==> 80 * TotalScore <= score * 100
  {
    if Percentage(score) < 50.0 then EnProceso
    else if Percentage(score) < 80.0 then LogroParcial
    else LogroEsperado
  }

  function LevelText(level: Level): string {
    match level
    case EnProceso => "⚠️ **Nivel: En" + " proceso**\n" + "Debes reforzar" + " los pasos y" + " coberturas de" + " la Ley 16.744."
    case LogroParcial => "👍 **Nivel:" + " Logro parcial**" + "\nTienes buen" + " criterio, pero" + " faltan ajustar" + " algunos" + " detalles."
    case LogroEsperado => "🏆 **Nivel:" + " Logro esperado**" + "\n¡Excelente!" + " Manejas la" + " orientación" + " correcta y" + " oportuna."
  }

  const ApprovedLine := "\n\n✅ **Curso Aprobado**"
  const FailedLine := "\n\n❌ **Curso Reprobado**"
  const Title := "🏁 **Evaluación" + " Final**\n\n" + "🎯 **Puntaje: "

  function Digit(d: int): char
    requires 0 <= d < 10
  {
    "0123456789"[d]
  }

  /** The decimal rendering a template literal gives an integer. */
  function DecimalString(n: int): (s: string)
    ensures |s| > 0
    decreases if n < 0 then 1 - n else n
  {
    if n < 0 then "-" + DecimalString(-n)
    else if n < 10 then [Digit(n)]
    else DecimalString(n / 10) + [Digit(n % 10)]
  }

  predicate EndsWith(s: string, suffix: string) {
    |suffix| <= |s| && s[|s| - |suffix|..] == suffix
  }

  /** Whatever precedes it, a message ending in one verdict line does not end in the other. */
  lemma VerdictLinesDiffer(head: string)
    ensures EndsWith(head + ApprovedLine, ApprovedLine) && !EndsWith(head + ApprovedLine, FailedLine)
    ensures EndsWith(head + FailedLine, FailedLine) && !EndsWith(head + FailedLine, ApprovedLine)
  {
    var a, f := head + ApprovedLine, head + FailedLine;
    assert a[|a| - |ApprovedLine|..] == ApprovedLine;
    assert f[|f| - |FailedLine|..] == FailedLine;
    assert |FailedLine| == |ApprovedLine| + 1;
    // One character after the shorter line begins, the lines differ: '\n' against '❌'.
    assert a[|a| - |ApprovedLine| + 1] == ApprovedLine[1] == '\n';
    assert f[|f| - |FailedLine| + 2] == FailedLine[2] == '❌';
  }

  lemma PrefixOfConcat(t: string, a: string, b: string)
    ensures |t + a + b| >= |t| && (t + a + b)[..|t|] == t
  {
  }

  /** The evaluation message: the title with the score out of 18, the level text, and the
      verdict line. */
  function EvaluationMessage(score: int): string {
    Title + ScoreAndLevel(score) + VerdictLine(score >= PassingScore)
  }

  /** The evaluation message opens with the title and reads "Curso Aprobado" at its end
      exactly when the score reaches 14, "Curso Reprobado" exactly when it does not. */
  lemma EvaluationVerdict(score: int)
    ensures |EvaluationMessage(score)| >= |Title| && EvaluationMessage(score)[..|Title|] == Title
    ensures EndsWith(EvaluationMessage(score), ApprovedLine) <==> score >= PassingScore
    ensures EndsWith(EvaluationMessage(score), FailedLine) <==> score < PassingScore
  {
    VerdictLinesDiffer(Title + ScoreAndLevel(score));
    PrefixOfConcat(Title, ScoreAndLevel(score), VerdictLine(score >= PassingScore));
  }

  /** The part between the title and the verdict: the score out of 18 and the level text. */
  function ScoreAndLevel(score: int): string {
    DecimalString(score) + "/18**\n\n" + LevelText(LevelOf(score))
  }

  function VerdictLine(approved: bool): string {
    if approved then ApprovedLine else FailedLine
  }

  /** The two verdicts are mutually exclusive and cover every score; 14 points is a
      partial achievement that still passes. */
  lemma VerdictBoundary()
    ensures LevelOf(14) == LogroParcial && 14 >= PassingScore
    ensures LevelOf(13) == LogroParcial && 13 < PassingScore
    ensures LevelOf(8) == EnProceso && LevelOf(9) == LogroParcial && LevelOf(15) == LogroEsperado
  {
  }

  /** A higher score never gives a lower tier and never turns a pass into a fail. */
  lemma LevelMonotonic(a: int, b: int)
    requires a <= b
    ensures LevelOf(a) == LogroEsperado ==> LevelOf(b) == LogroEsperado
    ensures LevelOf(b) == EnProceso ==> LevelOf(a) == EnProceso
    ensures a >= PassingScore ==> b >= PassingScore
  {
  }

  /** `Math.min(step + 1, total)`: the number of the question on screen, capped at the
      number of questions. */
  function ProgressCurrent(step: int, total: int): (current: int)
    ensures current <= total && current <= step + 1
    ensures current == total || current == step + 1
  {
    if step + 1 < total then step + 1 else total
  }

  /** How many of the first `k` progress segments are drawn active (`i <= step`). */
  function ActiveSegments(step: int, k: nat): nat {
    if k == 0 then 0 else ActiveSegments(step, k - 1) + (if k - 1 <= step then 1 else 0)
  }

  /** The segments the bar draws active number exactly `min(step + 1, total)`. */
  lemma {:induction false} ActiveSegmentsIsProgress(step: nat, total: nat)
    ensures ActiveSegments(step, total) == ProgressCurrent(step, total)
  {
    if total > 0 {
      ActiveSegmentsIsProgress(step, total - 1);
    }
  }
}
