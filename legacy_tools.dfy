/**
 * The older copy of the retry parser, `extractPossibleTimeout` in the main
 * package (app/tools.go), kept from before the code moved into the tools
 * package.
 */
module LegacyTools {
  import opened Wrappers
  import opened Strconv
  import opened GoStrings
  import Tools

  /** `extractPossibleTimeout(err)`, on `err.Error()`, step by step as the main package writes it. */
  function ExtractPossibleTimeout(errorString: string): (r: (int, Option<Tools.TimeoutError>))
    requires Tools.RetrySliceInBounds(errorString)
    ensures r == Tools.ExtractPossibleTimeout(errorString)
  {
    if Contains(errorString, "kicked") then (0, Some(Tools.Unchanged(errorString)))
    else
      var after := "after ";
      var retryAfterStringEnd := LastIndex(errorString, after);
      if retryAfterStringEnd == -1 then (0, Some(Tools.Unchanged(errorString)))
      else
        var found := LastIndex(errorString, " (");
        var timeoutEnd := if found == -1 then |errorString| else found;
        var (n, err) := Atoi(errorString[retryAfterStringEnd + |after|..timeoutEnd]);
        (n, if err.Some? then Some(Tools.NotANumber(err.value)) else None)
  }
}
