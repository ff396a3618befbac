/** The status badge and status dot: a pod status is mapped to a colour
    through the theme's status table, with the Unknown colour as fallback,
    and every status except Running pulses. */
module StatusBadge {
  import opened Http

  /** The theme's `STATUS_COLORS` table. */
  const StatusColors: map<string, string> := map[
    "Running" := "#22c55e",
    "Pending" := "#f59e0b",
    "Failed" := "#ef4444",
    "Succeeded" := "#3b82f6",
    "CrashLoopBackOff" := "#ef4444",
    "Error" := "#ef4444",
    "Unknown" := "#64748b"
  ]

  const UnknownColor: string := "#64748b"

  /** `STATUS_COLORS[status] || STATUS_COLORS.Unknown` */
  function StatusColor(status: string): (c: string)
    ensures status in StatusColors ==> c == StatusColors[status]
    ensures status !in StatusColors ==> c == UnknownColor
    ensures c in StatusColors.Values
  {
    if status in StatusColors then StatusColors[status] else StatusColors["Unknown"]
  }

  /** The three failure statuses share the error colour. */
  lemma FailuresLookAlike()
    ensures StatusColor("Failed") == StatusColor("CrashLoopBackOff") == StatusColor("Error") == "#ef4444"
    ensures StatusColor("Terminated") == StatusColor("Unknown") == UnknownColor
  {
  }

  datatype Badge = Badge(text: string, color: string, boxShadow: Option<string>, animation: Option<string>)

  function RenderBadge(status: string, showGlow: bool): (b: Badge)
    ensures b.text == status && b.color == StatusColor(status)
    ensures b.boxShadow.Some? <==> showGlow
    ensures showGlow ==> b.boxShadow == Some("0 0 12px " + b.color + "40")
    ensures b.animation.None? <==> status == "Running"
    ensures status != "Running" ==> b.animation == Some("pulse 2s infinite")
  {
    var color := StatusColor(status);
    Badge(status, color,
          if showGlow then Some("0 0 12px " + color + "40") else None,
          if status == "Running" then None else Some("pulse 2s infinite"))
  }

  datatype Dot = Dot(color: string, boxShadow: string, animation: Option<string>)

  function RenderDot(status: string): (d: Dot)
    ensures d.color == StatusColor(status)
    ensures d.boxShadow == "0 0 8px " + d.color
    ensures d.animation.None? <==> status == "Running"
    ensures status != "Running" ==> d.animation == Some("blink 1.5s infinite")
  {
    var color := StatusColor(status);
    Dot(color, "0 0 8px " + color, if status == "Running" then None else Some("blink 1.5s infinite"))
  }

  /** The badge and the dot always agree on colour and on whether they
      animate. */
  lemma BadgeAndDotAgree(status: string, showGlow: bool)
    ensures RenderBadge(status, showGlow).color == RenderDot(status).color
    ensures RenderBadge(status, showGlow).animation.None? == RenderDot(status).animation.None?
  {
  }
}
