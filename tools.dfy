/**
 * The pure helpers of the bot's tools package (app/tools/tools.go): the
 * classifier of user-facing errors, the media predicates, the parser of
 * Telegram's "retry after N" errors and the rate-limit reply.
 */
module Tools {
  import opened Wrappers
  import opened GoInts
  import opened Strconv
  import opened GoStrings

  const Failed: string := "Failed"

  // ---------------------------------------------------------------------
  // Errors shown to users
  // ---------------------------------------------------------------------

  /** The sentinel errors of the package, and any other error by its text. */
  datatype BotError = NoFile | TooBig | FailedToDownload | NotSupported | Other(text: string)

  /** `err.Error()`. */
  function ErrorText(err: BotError): string
  {
    match err
    case NoFile => "no file found"
    case TooBig => "Senpai, it's too big.."
    case FailedToDownload => "Failed to download"
    case NotSupported => "Not supported yet, sorry"
    case Other(text) => text
  }

  /**
   * `GetUserFriendlyErr` as written. A Go `case` does not fall through, so
   * the empty cases for `TooBigErr` and `FailedToDownloadErr` leave the
   * switch and reach the generic reply.
   */
  function GetUserFriendlyErr(err: BotError): (r: (string, bool))
    ensures r.1 <==> err == NotSupported
    ensures r.0 == if r.1 then ErrorText(err) else Failed
  {
    match err
    case TooBig => (Failed, false)
    case FailedToDownload => (Failed, false)
    case NotSupported => (ErrorText(err), true)
    case _ => (Failed, false)
  }

  /** The three errors the switch lists: the ones meant to reach the user verbatim. */
  predicate IsListedError(err: BotError)
  {
    err == TooBig || err == FailedToDownload || err == NotSupported
  }

  /** The classifier with the listed cases sharing one body, as the switch evidently intends. */
  function FriendlyErr(err: BotError): (r: (string, bool))
    ensures r.1 <==> IsListedError(err)
    ensures r.0 == if r.1 then ErrorText(err) else Failed
  {
    match err
    case TooBig | FailedToDownload | NotSupported => (ErrorText(err), true)
    case _ => (Failed, false)
  }

  /**
   * The two differ exactly on the too-big and failed-download errors: a
   * user whose file is over the size limit reads "Failed", and the error
   * is logged as unexpected.
   */
  lemma FriendlyErrAsWrittenDiffers(err: BotError)
    ensures GetUserFriendlyErr(err) != FriendlyErr(err) <==> err == TooBig || err == FailedToDownload
    ensures GetUserFriendlyErr(TooBig) == ("Failed", false)
    ensures FriendlyErr(TooBig) == ("Senpai, it's too big..", true)
  {
  }

  // ---------------------------------------------------------------------
  // Media predicates
  // ---------------------------------------------------------------------

  /** The kinds of attachment a Telegram message can carry. */
  datatype Kind = Animation | Audio | Document | Photo | Sticker | Video | VideoNote | Voice

  /** The attachment pointers of a `tb.Message`, each either set or nil. */
  datatype Message = Message(
    animation: bool, audio: bool, document: bool, photo: bool,
    sticker: bool, video: bool, videoNote: bool, voice: bool)

  /** The kinds whose pointer is set. */
  function Attached(m: Message): set<Kind>
  {
    (if m.animation then {Animation} else {}) + (if m.audio then {Audio} else {}) +
    (if m.document then {Document} else {}) + (if m.photo then {Photo} else {}) +
    (if m.sticker then {Sticker} else {}) + (if m.video then {Video} else {}) +
    (if m.videoNote then {VideoNote} else {}) + (if m.voice then {Voice} else {})
  }

  /** Attachments that need the "send media" permission. */
  const MediaKinds: set<Kind> := {Photo, Video, VideoNote, Voice}

  /** Attachments that need the "send other messages" permission. */
  const OtherKinds: set<Kind> := {Animation, Sticker}

  /** `IsMedia(m)`; `None` stands for a nil message. */
  function IsMedia(m: Option<Message>): (b: bool)
    ensures b <==> m.Some? && Attached(m.value) * MediaKinds != {}
  {
    m.Some? && (m.value.photo || m.value.video || m.value.videoNote || m.value.voice)
  }

  /** `IsNonMediaMedia(m)`; `None` stands for a nil message. */
  function IsNonMediaMedia(m: Option<Message>): (b: bool)
    ensures b <==> m.Some? && Attached(m.value) * OtherKinds != {}
  {
    m.Some? && (m.value.animation || m.value.sticker)
  }

  /** A message with one attachment: which predicate claims it depends only on its kind, and never both. */
  lemma SingleAttachmentClassified(m: Message, k: Kind)
    requires Attached(m) == {k}
    ensures IsMedia(Some(m)) <==> k in MediaKinds
    ensures IsNonMediaMedia(Some(m)) <==> k in OtherKinds
    ensures !(IsMedia(Some(m)) && IsNonMediaMedia(Some(m)))
  {
  }

  // ---------------------------------------------------------------------
  // "retry after N"
  // ---------------------------------------------------------------------

  const After: string := "after "

  /** Where the number ends: the last " (", or the end of the text. */
  function TimeoutEnd(s: string): (e: int)
    ensures 0 <= e <= |s|
  {
    var e := LastIndex(s, " (");
    if e == -1 then |s| else e
  }

  /** Go panics when the slice is reversed: the last " (" must not come before the number's start. */
  predicate RetrySliceInBounds(s: string)
  {
    Contains(s, "kicked") || LastIndex(s, After) == -1 || LastIndex(s, After) + |After| <= TimeoutEnd(s)
  }

  /** The text handed to `Atoi`: from after the last "after " to the last " (" or the end. */
  function RetryText(s: string): string
    requires LastIndex(s, After) >= 0 && LastIndex(s, After) + |After| <= TimeoutEnd(s)
  {
    s[LastIndex(s, After) + |After|..TimeoutEnd(s)]
  }

  /** The error `ExtractPossibleTimeout` returns: the one passed in, or `Atoi`'s. */
  datatype TimeoutError = Unchanged(text: string) | NotANumber(numError: NumError)

  /** `ExtractPossibleTimeout(err)`, on `err.Error()`. */
  function ExtractPossibleTimeout(errorString: string): (r: (int, Option<TimeoutError>))
    requires RetrySliceInBounds(errorString)
    ensures IsInt64(r.0)
    ensures r.1.Some? && r.1.value.Unchanged? ==> r == (0, Some(Unchanged(errorString)))
  {
    if Contains(errorString, "kicked") then (0, Some(Unchanged(errorString)))
    else
      var retryAfterStringEnd := LastIndex(errorString, After);
      if retryAfterStringEnd == -1 then (0, Some(Unchanged(errorString)))
      else
        var (n, err) := Atoi(errorString[retryAfterStringEnd + |After|..TimeoutEnd(errorString)]);
        (n, if err.Some? then Some(NotANumber(err.value)) else None)
  }

  /**
   * The error comes back unchanged, with 0, exactly when the text mentions
   * "kicked" or has no "after "; otherwise the result is `Atoi`'s on the
   * retry text, and it is a timeout exactly when that text is a decimal
   * number within 64 bits.
   */
  lemma TimeoutCases(s: string)
    requires RetrySliceInBounds(s)
    ensures var r := ExtractPossibleTimeout(s);
      (r == (0, Some(Unchanged(s))) <==> Contains(s, "kicked") || !Contains(s, After))
    ensures !Contains(s, "kicked") && Contains(s, After) ==>
      var r := ExtractPossibleTimeout(s);
      var t := RetryText(s);
      r.0 == Atoi(t).0 &&
      (r.1 == None <==> IsDecimal(t) && IsInt64(SignedValue(t))) &&
      (r.1 == None ==> r.0 == SignedValue(t))
  {
    if !Contains(s, "kicked") && Contains(s, After) {
      AtoiSucceedsIff(RetryText(s));
    }
  }

  /** Any text that mentions "kicked" comes back unchanged, with no timeout. */
  lemma KickedIsUnchanged(s: string)
    requires Contains(s, "kicked")
    ensures RetrySliceInBounds(s) && ExtractPossibleTimeout(s) == (0, Some(Unchanged(s)))
  {
  }

  /** `FormatInt` writes only digits and the minus sign. */
  lemma FormatIntLacks(n: int, c: char)
    requires !IsDigit(c) && c != '-'
    ensures c !in FormatInt(n)
  {
    var s := FormatInt(n);
    forall i | 0 <= i < |s| ensures s[i] != c {
      if n < 0 && i > 0 {
        assert s[i] == s[1..][i - 1];
      }
    }
  }

  /** Telegram's retry text built around any 64-bit number and status code. */
  function RetryMessage(prefix: string, n: int, code: string): string
  {
    prefix + After + FormatInt(n) + " (" + code + ")"
  }

  /** In a retry message the last "after " is the one before the number. */
  lemma RetryMessageAfter(prefix: string, n: int, code: string)
    requires AllDigits(code)
    ensures LastIndex(RetryMessage(prefix, n, code), After) == |prefix|
  {
    var tail := FormatInt(n) + " (" + code + ")";
    assert RetryMessage(prefix, n, code) == prefix + After + tail;
    FormatIntLacks(n, 'a');
    assert 'a' !in code;
    LastOccurrenceBeforeTail(prefix, After, tail);
  }

  /** In a retry message the last " (" is the one after the number, which is what lies between. */
  lemma RetryMessageParen(prefix: string, n: int, code: string)
    requires AllDigits(code)
    ensures var s := RetryMessage(prefix, n, code);
      TimeoutEnd(s) == |prefix| + |After| + |FormatInt(n)| &&
      s[|prefix| + |After|..TimeoutEnd(s)] == FormatInt(n)
  {
    var head := prefix + After + FormatInt(n);
    var s := RetryMessage(prefix, n, code);
    assert s == head + " (" + (code + ")");
    assert ' ' !in code;
    LastOccurrenceBeforeTail(head, " (", code + ")");
    assert s[|prefix| + |After|..|head|] == FormatInt(n);
  }

  /**
   * "... after N (code)" yields N and no error, whatever comes before
   * "after " and whatever digits the code has, unless the text mentions
   * "kicked".
   */
  lemma RetryAfterParses(prefix: string, n: int, code: string)
    requires IsInt64(n) && AllDigits(code)
    requires !Contains(RetryMessage(prefix, n, code), "kicked")
    ensures RetrySliceInBounds(RetryMessage(prefix, n, code))
    ensures ExtractPossibleTimeout(RetryMessage(prefix, n, code)) == (n, None)
  {
    RetryMessageAfter(prefix, n, code);
    RetryMessageParen(prefix, n, code);
    AtoiFormatInt(n);
  }

  /** Without a status code, the number runs to the end of the text when nothing before it opens a parenthesis. */
  lemma RetryAtEndMarks(prefix: string, n: int)
    requires '(' !in prefix
    ensures var s := prefix + After + FormatInt(n);
      LastIndex(s, After) == |prefix| && TimeoutEnd(s) == |s| &&
      s[|prefix| + |After|..|s|] == FormatInt(n)
  {
    var s := prefix + After + FormatInt(n);
    FormatIntLacks(n, 'a');
    LastOccurrenceBeforeTail(prefix, After, FormatInt(n));
    FormatIntLacks(n, '(');
    assert '(' !in After;
    MissingCharNoOccurrence(s, " (", 1);
  }

  /** "... after N" with no status code yields N too, when nothing before it opens a parenthesis. */
  lemma RetryAfterParsesAtEnd(prefix: string, n: int)
    requires IsInt64(n) && '(' !in prefix
    requires !Contains(prefix + After + FormatInt(n), "kicked")
    ensures RetrySliceInBounds(prefix + After + FormatInt(n))
    ensures ExtractPossibleTimeout(prefix + After + FormatInt(n)) == (n, None)
  {
    RetryAtEndMarks(prefix, n);
    AtoiFormatInt(n);
  }

  /** First case of the parser's test (app/tools/tools_test.go:9-13): a retry after 5 seconds. */
  lemma RetryAfter5()
    ensures RetrySliceInBounds("telegram: retry after 5 (429)")
    ensures ExtractPossibleTimeout("telegram: retry after 5 (429)") == (5, None)
  {
    assert RetryMessage("telegram: retry ", 5, "429") == "telegram: retry after 5 (429)";
    MissingCharNoOccurrence("telegram: retry after 5 (429)", "kicked", 0);
    RetryAfterParses("telegram: retry ", 5, "429");
  }

  /** Second case (app/tools/tools_test.go:14-18): a two-digit wait. */
  lemma RetryAfter10()
    ensures RetrySliceInBounds("telegram: retry after 10 (429)")
    ensures ExtractPossibleTimeout("telegram: retry after 10 (429)") == (10, None)
  {
    assert RetryMessage("telegram: retry ", 10, "429") == "telegram: retry after 10 (429)";
    MissingCharNoOccurrence("telegram: retry after 10 (429)", "kicked", 0);
    RetryAfterParses("telegram: retry ", 10, "429");
  }

  /** Third case (app/tools/tools_test.go:20-24): no "telegram: " prefix. */
  lemma RetryAfter24()
    ensures RetrySliceInBounds("retry after 24 (429)")
    ensures ExtractPossibleTimeout("retry after 24 (429)") == (24, None)
  {
    assert RetryMessage("retry ", 24, "429") == "retry after 24 (429)";
    MissingCharNoOccurrence("retry after 24 (429)", "kicked", 0);
    RetryAfterParses("retry ", 24, "429");
  }

  /** Fourth case (app/tools/tools_test.go:26-30): no status code, so the number runs to the end. */
  lemma RetryAfter50()
    ensures RetrySliceInBounds("retry after 50")
    ensures ExtractPossibleTimeout("retry after 50") == (50, None)
  {
    assert "retry " + After + FormatInt(50) == "retry after 50";
    MissingCharNoOccurrence("retry after 50", "kicked", 0);
    RetryAfterParsesAtEnd("retry ", 50);
  }

  /** Fifth case (app/tools/tools_test.go:31-35): without the trailing space there is no "after ", so the error comes back. */
  lemma RetryAfterWithoutNumber()
    ensures RetrySliceInBounds("retry after")
    ensures ExtractPossibleTimeout("retry after") == (0, Some(Unchanged("retry after")))
  {
    MissingCharNoOccurrence("retry after", "kicked", 0);
    assert "retry " + "after" == "retry after";
    NoOccurrenceShortTail("retry ", "after", After);
  }

  /** Last case (app/tools/tools_test.go:36-40): a "kicked" error is returned unchanged. */
  lemma RetryWhenKicked()
    ensures RetrySliceInBounds("telegram: bot was " + "kicked" + " from the supergroup chat (403)")
    ensures ExtractPossibleTimeout("telegram: bot was " + "kicked" + " from the supergroup chat (403)")
      == (0, Some(Unchanged("telegram: bot was " + "kicked" + " from the supergroup chat (403)")))
  {
    OccursInMiddle("telegram: bot was ", "kicked", " from the supergroup chat (403)");
    KickedIsUnchanged("telegram: bot was " + "kicked" + " from the supergroup chat (403)");
  }

  // ---------------------------------------------------------------------
  // Rate-limit reply
  // ---------------------------------------------------------------------

  const RateLimitPrefix: string := "Please, not so often. Try again in "
  const RateLimitSuffix: string := " seconds"

  /** `FormatRateLimitResponse(diff)`: `%d` of an `int64` is its `FormatInt` text. */
  function FormatRateLimitResponse(diff: int): string
  {
    RateLimitPrefix + FormatInt(diff) + RateLimitSuffix
  }

  /** The reply is the fixed sentence around a number that reads back as `diff`. */
  lemma RateLimitResponseNamesWait(diff: int)
    requires IsInt64(diff)
    ensures var r := FormatRateLimitResponse(diff);
      |r| > |RateLimitPrefix| + |RateLimitSuffix| &&
      r[..|RateLimitPrefix|] == RateLimitPrefix &&
      r[|r| - |RateLimitSuffix|..] == RateLimitSuffix &&
      Atoi(r[|RateLimitPrefix|..|r| - |RateLimitSuffix|]) == (diff, None)
  {
    var r := FormatRateLimitResponse(diff);
    assert r[|RateLimitPrefix|..|r| - |RateLimitSuffix|] == FormatInt(diff);
    AtoiFormatInt(diff);
  }
}
