/** The `mitigations=` boot parameter: "off" and "auto" select the setting,
    anything else is reported and leaves the setting as it was. */
module Mitigations {

  datatype Setting = Off | Auto

  /** The setting the kernel boots with. */
  const Default: Setting := Auto

  /** The setting after parsing `arg` while `cur` is in force. */
  function Parse(cur: Setting, arg: string): (r: Setting)
    ensures r == Off <==> arg == "off" || (arg != "auto" && cur == Off)
  {
    if arg == "off" then Off
    else if arg == "auto" then Auto
    else cur
  }

  /** An unsupported word changes nothing, a supported one decides the
      setting whatever came before, and parsing a word twice is parsing it
      once. */
  lemma {:induction false} ParseFacts(cur: Setting, arg: string, prev: string)
    ensures arg != "off" && arg != "auto" ==> Parse(cur, arg) == cur
    ensures arg == "off" || arg == "auto" ==> Parse(Parse(cur, prev), arg) == Parse(Default, arg)
    ensures Parse(Parse(cur, arg), arg) == Parse(cur, arg)
  {
  }
}
