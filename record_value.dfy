// The single-string presentation several providers use for the structured
// record types: an SRV value is "priority weight port target" and a CAA value
// is "flags tag value" (the presentation format of RFC 2782 and section 4.1 of
// RFC 8659); every other type carries its content as it is. The Tencent,
// Baidu, DNS.COM, Huawei, Aliyun and DNSPod clients each define the same pair
// of functions; their modules name them and prove the round trip for their
// own use.
module RecordValue {
  import opened Types
  import opened Text
  import opened Numbers

  /** The fields a presentation value is read back into. */
  datatype Parsed = Parsed(
    content: string,
    srvPriority: Option<u16>,
    srvWeight: Option<u16>,
    srvPort: Option<u16>,
    caaFlags: Option<u8>,
    caaTag: Option<string>)

  function Raw(value: string): Parsed
  {
    Parsed(value, None, None, None, None, None)
  }

  /** The value sent to the provider; missing SRV numbers are written as 0,
      a missing CAA flag as 0 and a missing CAA tag as "issue". */
  function Format(recordType: string, content: string, srvPriority: Option<u16>,
                  srvWeight: Option<u16>, srvPort: Option<u16>, caaFlags: Option<u8>,
                  caaTag: Option<string>): string
  {
    match recordType
    case "SRV" =>
      Show(srvPriority.UnwrapOr(0)) + " " + Show(srvWeight.UnwrapOr(0)) + " "
        + Show(srvPort.UnwrapOr(0)) + " " + content
    case "CAA" =>
      Show(caaFlags.UnwrapOr(0)) + " " + caaTag.UnwrapOr("issue") + " " + content
    case _ => content
  }

  /** The value read back: SRV needs at least four words and CAA at least
      three, otherwise the value is kept whole with no structured fields. */
  function Parse(recordType: string, value: string): Parsed
  {
    match recordType
    case "SRV" =>
      var parts := Words(value);
      if |parts| >= 4 then
        Parsed(Join(parts[3..], " "), ParseU16(parts[0]), ParseU16(parts[1]),
               ParseU16(parts[2]), None, None)
      else Raw(value)
    case "CAA" =>
      var parts := Words(value);
      if |parts| >= 3 then
        Parsed(Join(parts[2..], " "), None, None, None, ParseU8(parts[0]), Some(parts[1]))
      else Raw(value)
    case _ => Raw(value)
  }

  /** Content that survives `split_whitespace` followed by a single-space
      join: at least one word, single spaces, no white space at either end. */
  predicate SingleSpaced(content: string)
  {
    |Words(content)| >= 1 && Join(Words(content), " ") == content
  }

  lemma TokenSingleSpaced(content: string)
    requires IsToken(content)
    ensures SingleSpaced(content)
  {
    WordsToken(content);
  }

  /** Words joined by single spaces, such as "ca.example.net; account=1",
      are single-spaced content. */
  lemma JoinedWordsSingleSpaced(words: seq<string>)
    requires |words| >= 1 && forall i :: 0 <= i < |words| ==> IsToken(words[i])
    ensures SingleSpaced(Join(words, " "))
  {
    WordsJoin(words);
  }

  /** What a formatted value is expected to read back as. */
  function Expected(recordType: string, content: string, srvPriority: Option<u16>,
                    srvWeight: Option<u16>, srvPort: Option<u16>, caaFlags: Option<u8>,
                    caaTag: Option<string>): Parsed
  {
    if recordType == "SRV" then
      Parsed(content, Some(srvPriority.UnwrapOr(0)), Some(srvWeight.UnwrapOr(0)),
             Some(srvPort.UnwrapOr(0)), None, None)
    else if recordType == "CAA" then
      Parsed(content, None, None, None, Some(caaFlags.UnwrapOr(0)), Some(caaTag.UnwrapOr("issue")))
    else Raw(content)
  }

  lemma {:induction false} WordsTwo(a: string, b: string, rest: string)
    requires IsToken(a) && IsToken(b)
    ensures Words(a + " " + b + " " + rest) == [a, b] + Words(rest)
  {
    assert a + " " + b + " " + rest == a + " " + (b + " " + rest);
    WordsCons(a, b + " " + rest);
    WordsCons(b, rest);
  }

  lemma {:induction false} WordsThree(a: string, b: string, c: string, rest: string)
    requires IsToken(a) && IsToken(b) && IsToken(c)
    ensures Words(a + " " + b + " " + c + " " + rest) == [a, b, c] + Words(rest)
  {
    assert a + " " + b + " " + c + " " + rest == a + " " + b + " " + (c + " " + rest);
    WordsTwo(a, b, c + " " + rest);
    WordsCons(c, rest);
  }

  lemma {:induction false} SrvRoundTrip(content: string, p: u16, w: u16, port: u16)
    requires SingleSpaced(content)
    ensures Parse("SRV", Show(p) + " " + Show(w) + " " + Show(port) + " " + content)
         == Parsed(content, Some(p), Some(w), Some(port), None, None)
  {
    ShowIsToken(p);
    ShowIsToken(w);
    ShowIsToken(port);
    var v := Show(p) + " " + Show(w) + " " + Show(port) + " " + content;
    WordsThree(Show(p), Show(w), Show(port), content);
    var parts := Words(v);
    assert parts[3..] == Words(content);
    ParseShow(p, U16Max);
    ParseShow(w, U16Max);
    ParseShow(port, U16Max);
  }

  lemma {:induction false} CaaRoundTrip(content: string, flags: u8, tag: string)
    requires SingleSpaced(content) && IsToken(tag)
    ensures Parse("CAA", Show(flags) + " " + tag + " " + content)
         == Parsed(content, None, None, None, Some(flags), Some(tag))
  {
    ShowIsToken(flags);
    var v := Show(flags) + " " + tag + " " + content;
    WordsTwo(Show(flags), tag, content);
    var parts := Words(v);
    assert parts[2..] == Words(content);
    ParseShow(flags, U8Max);
  }

  /** Reading back a formatted value recovers the request's fields, with the
      documented defaults for missing numbers and tag, whenever the content
      (and, for CAA, the tag) keeps its shape through a white-space split. */
  lemma RoundTrip(recordType: string, content: string, srvPriority: Option<u16>,
                  srvWeight: Option<u16>, srvPort: Option<u16>, caaFlags: Option<u8>,
                  caaTag: Option<string>)
    requires (recordType == "SRV" || recordType == "CAA") ==> SingleSpaced(content)
    requires recordType == "CAA" ==> IsToken(caaTag.UnwrapOr("issue"))
    ensures Parse(recordType, Format(recordType, content, srvPriority, srvWeight, srvPort, caaFlags, caaTag))
         == Expected(recordType, content, srvPriority, srvWeight, srvPort, caaFlags, caaTag)
  {
    if recordType == "SRV" {
      SrvRoundTrip(content, srvPriority.UnwrapOr(0), srvWeight.UnwrapOr(0), srvPort.UnwrapOr(0));
    } else if recordType == "CAA" {
      CaaRoundTrip(content, caaFlags.UnwrapOr(0), caaTag.UnwrapOr("issue"));
    }
  }

  /** A CAA value of two words, such as "ca.example.net; account=230123"
      (an issuer with a parameter), reads back whole. */
  lemma TwoWordCaaRoundTrip(a: string, b: string, flags: u8, tag: string)
    requires IsToken(a) && IsToken(b) && IsToken(tag)
    ensures Parse("CAA", Format("CAA", a + " " + b, None, None, None, Some(flags), Some(tag)))
         == Parsed(a + " " + b, None, None, None, Some(flags), Some(tag))
  {
    var words := [a, b];
    assert Join(words, " ") == a + " " + b;
    JoinedWordsSingleSpaced(words);
    RoundTrip("CAA", a + " " + b, None, None, None, Some(flags), Some(tag));
  }

  /** An SRV value of fewer than four words, such as a bare target, is kept
      whole and yields no priority, weight or port. */
  lemma ShortSrvIsRaw(value: string)
    requires |Words(value)| < 4
    ensures Parse("SRV", value) == Raw(value)
  {
  }
}
