/** The message cards (Discord embeds) the handlers reply with, the error card,
    the help card and the 2000-character trim rule applied to lookup bodies. */
module Embeds {
  import opened Options

  datatype Embed = Embed(title: string, description: string, footer: Option<string>)

  /** `errResponse`: every user-facing failure is a card titled "Error". */
  function ErrResponse(description: string): (e: Embed)
    ensures e.title == "Error" && e.description == description && e.footer.None?
  {
    Embed("Error", description, None)
  }

  /** `DocsHelpEmbed`, the reply to a bare lookup command. */
  const DocsHelpEmbed := Embed("Docs help!", "", None)

  const Limit := 2000
  const Keep := 1950

  /** The notice `funcResponse` appends to a trimmed body. */
  const FuncTrimNotice := "\n\n*note: the message was trimmed to fit the 2k character limit*"

  /** The notice `typeResponse` and `methodResponse` append to a trimmed body. */
  const TrimNotice := "\n\n*note: the message is trimmed to fit the 2k character limit*"

  /** A body longer than `Limit` is cut to its first `Keep` characters followed by
      `notice`; any other body is kept as it is. */
  function Trim(body: string, notice: string): (r: string)
    ensures |body| <= Limit ==> r == body
    ensures |body| > Limit ==> |r| == Keep + |notice|
    ensures |body| > Limit ==> r[..Keep] == body[..Keep] && r[Keep..] == notice
  {
    if |body| > Limit then body[..Keep] + notice else body
  }

  /** Trimming a second time changes nothing, whatever the notice's length. */
  lemma TrimIdempotent(body: string, notice: string)
    ensures Trim(Trim(body, notice), notice) == Trim(body, notice)
  {
  }

  /** With either notice of the handlers a trimmed body is longer than `Limit`:
      1950 kept characters plus a 62- or 63-character notice. */
  lemma TrimmedExceedsLimit(body: string)
    requires |body| > Limit
    ensures |Trim(body, FuncTrimNotice)| == 2013
    ensures |Trim(body, TrimNotice)| == 2012
  {
  }
}
