/** The comparison dialog: two items and a kind of comparison become one
    question sent to the chat with the searches that kind calls for. */
module Compare {
  import opened Base
  import opened Text
  import opened MultiSource

  datatype CompareType = CryptoCompare | GitHubCompare | GeneralCompare

  const Instructions := " Provide a detailed comparison "
    + "covering:\n1. Key differences and "
    + "similarities\n2. Strengths and "
    + "weaknesses of each\n3. Use cases and "
    + "target audience\n4. Performance and "
    + "metrics\n5. Community and ecosystem\n6. "
    + "Which one to choose and when\n\nPlease "
    + "structure your response in a clear, "
    + "comparative format."

  /** The searches of a comparison: a crypto comparison adds the crypto
      search, a code comparison the GitHub one, and the web search always
      comes last. */
  function SourcesFor(t: CompareType): (ss: seq<SourceType>)
    ensures |ss| >= 1 && ss[|ss| - 1] == Web
    ensures Distinct(ss)
    ensures t == CryptoCompare <==> Crypto in ss
    ensures t == GitHubCompare <==> GitHub in ss
    ensures Twitter !in ss
  {
    match t
    case CryptoCompare => [Crypto, Web]
    case GitHubCompare => [GitHub, Web]
    case GeneralCompare => [Web]
  }

  /** The question: "Compare <a> and <b>." with the items as typed, then the
      fixed instructions; it names both items at its head and ends with the
      instructions. */
  function CompareQuery(a: string, b: string): (q: string)
    ensures StartsWith(q, "Compare " + a + " and " + b + ".")
    ensures |q| >= |Instructions| && q[|q| - |Instructions|..] == Instructions
  {
    var head := "Compare " + a + " and " + b + ".";
    assert (head + Instructions)[..|head|] == head;
    assert (head + Instructions)[|head|..] == Instructions;
    head + Instructions
  }

  /** The arguments of `onCompare`: the question, an always empty second
      argument, and the searches. */
  datatype Request = Request(query: string, second: string, sources: seq<SourceType>)

  class CompareDialog {
    var open: bool
    var itemA: string
    var itemB: string
    var compareType: CompareType

    constructor ()
      ensures !open && itemA == "" && itemB == "" && compareType == GeneralCompare
    {
      open := false;
      itemA := "";
      itemB := "";
      compareType := GeneralCompare;
    }

    /** `handleCompare`: nothing when either item is blank; otherwise the
        request goes out, the dialog closes and both items are cleared. */
    method HandleCompare() returns (sent: Option<Request>)
      modifies this
      ensures AllWhitespace(old(itemA)) || AllWhitespace(old(itemB)) ==>
                sent == None && open == old(open) && itemA == old(itemA) && itemB == old(itemB)
      ensures !AllWhitespace(old(itemA)) && !AllWhitespace(old(itemB)) ==>
                && sent == Some(Request(CompareQuery(old(itemA), old(itemB)), "", SourcesFor(old(compareType))))
                && !open && itemA == "" && itemB == ""
      ensures compareType == old(compareType)
    {
      TrimEmptyIff(itemA);
      TrimEmptyIff(itemB);
      if Trim(itemA) == [] || Trim(itemB) == [] {
        return None;
      }
      sent := Some(Request(CompareQuery(itemA, itemB), "", SourcesFor(compareType)));
      open := false;
      itemA := "";
      itemB := "";
    }
  }
}
