/** server/src/core/agent/tools/date_retrieval_tool.py: the current instant
    for a "now" alias, otherwise whatever the date parser makes of the text. */
module DateRetrieval {
  import opened Wrappers
  import opened Text

  /** The strings, after lower-casing, that stand for the current instant. */
  const NowAliases: seq<string> := ["today", "now", "current"]

  /** `clock` is the formatted current time; `parse` is the formatted result
      of `dateutil.parser.parse`, or the message of what it raised. */
  function DateRetrievalTool(dateString: string, clock: string, parse: string -> Outcome<string>): string {
    if Lower(dateString) in NowAliases then "Current date and time: " + clock
    else match parse(dateString)
      case Ok(formatted) => "Parsed date: " + formatted
      case Err(e) => "Date parsing failed: " + e
  }

  /** The alias branch is taken exactly when the whole lower-cased input is
      an alias, and then the parser is not consulted; otherwise the parser's
      answer or failure is reported, each with its own prefix. */
  lemma {:induction false} DateRetrievalOutcome(dateString: string, clock: string, parse: string -> Outcome<string>)
    ensures var r := DateRetrievalTool(dateString, clock, parse);
            && (StartsWith(r, "Current date and time: ") <==> Lower(dateString) in NowAliases)
            && (Lower(dateString) in NowAliases ==> r == "Current date and time: " + clock)
            && (Lower(dateString) !in NowAliases && parse(dateString).Ok? ==>
                  r == "Parsed date: " + parse(dateString).value)
            && (StartsWith(r, "Date parsing failed: ") <==>
                  Lower(dateString) !in NowAliases && parse(dateString).Err?)
            && (Lower(dateString) !in NowAliases && parse(dateString).Err? ==>
                  r == "Date parsing failed: " + parse(dateString).reason)
  {
    var current, parsed, failed := "Current date and time: ", "Parsed date: ", "Date parsing failed: ";
    if Lower(dateString) in NowAliases {
      StartsWithTag(current, clock);
      StartsWithOtherTag(current, clock, failed, 0);
    } else {
      match parse(dateString)
      case Ok(f) =>
        StartsWithTag(parsed, f);
        StartsWithOtherTag(parsed, f, current, 0);
        StartsWithOtherTag(parsed, f, failed, 0);
      case Err(e) =>
        StartsWithTag(failed, e);
        StartsWithOtherTag(failed, e, current, 0);
    }
  }

  /** The alias test ignores case: "NOW" is the current instant. */
  lemma UpperCaseAlias(clock: string, parse: string -> Outcome<string>)
    ensures DateRetrievalTool("NOW", clock, parse) == "Current date and time: " + clock
  {
    assert Lower("NOW") == "now";
  }

  /** The alias test is whole-string equality: "what is today" goes to the
      parser although it contains "today". */
  lemma AliasIsWholeString(clock: string, parse: string -> Outcome<string>)
    ensures DateRetrievalTool("what is today", clock, parse) ==
            match parse("what is today")
            case Ok(f) => "Parsed date: " + f
            case Err(e) => "Date parsing failed: " + e
  {
    var l := Lower("what is today");
    assert l[0] == 'w';
    assert l !in NowAliases;
  }
}
