/** The `/run` request handler: the fast-path classifier `isSimpleCode` and the
    triage in `HandleRun` that picks an executor and shapes the HTTP response. */
module Handler {
  import opened Wrappers
  import opened GoStrings

  /** Code split into this many lines or more is never treated as simple. */
  const MaxSimpleLines := 30

  const StatusOK := 200
  const StatusBadRequest := 400
  const StatusMethodNotAllowed := 405

  /** The quoted package names an import line may mention and still be simple. */
  const FmtImport := "\"fmt\""
  const StringsImport := "\"strings\""
  const TimeImport := "\"time\""
  const MathImport := "\"math\""
  const OsImport := "\"os\""

  predicate MentionsAllowedImport(t: string) {
    || Contains(t, FmtImport) || Contains(t, StringsImport) || Contains(t, TimeImport)
    || Contains(t, MathImport) || Contains(t, OsImport)
  }

  // ---------------------------------------------------------------------------
  // The classifier, stated line by line

  /** What the scanner makes of one trimmed line, given whether an import block is open. */
  datatype LineRole = OpensBlock | ClosesBlock | ImportLine | OtherLine

  function Role(inBlock: bool, t: string): (role: LineRole)
    ensures role == ClosesBlock ==> inBlock
    ensures role == OtherLine <==> !inBlock && !HasPrefix(t, "import ")
  {
    OpenerStartsWithImport(t);
    if HasPrefix(t, "import (") then OpensBlock
    else if inBlock && t == ")" then ClosesBlock
    else if inBlock || HasPrefix(t, "import ") then ImportLine
    else OtherLine
  }

  /** Whether an import block is open after the scanner has read trimmed line `t`. */
  function BlockAfter(inBlock: bool, t: string): bool {
    match Role(inBlock, t)
    case OpensBlock => true
    case ClosesBlock => false
    case _ => inBlock
  }

  /** A checked import line that names none of the allowed packages. */
  predicate Offends(inBlock: bool, t: string) {
    Role(inBlock, t) == ImportLine && !MentionsAllowedImport(t)
  }

  /** Whether an import block is open when the scanner reaches line `k`. */
  function InBlockBefore(lines: seq<string>, k: nat): bool
    requires k <= |lines|
  {
    if k == 0 then false else BlockAfter(InBlockBefore(lines, k - 1), TrimSpace(lines[k - 1]))
  }

  predicate Offending(lines: seq<string>, k: nat)
    requires k < |lines|
  {
    Offends(InBlockBefore(lines, k), TrimSpace(lines[k]))
  }

  /** Fewer than 30 lines and not one offending import line. */
  predicate SimpleLines(lines: seq<string>) {
    |lines| < MaxSimpleLines && forall k :: 0 <= k < |lines| ==> !Offending(lines, k)
  }

  predicate IsSimple(code: string)
    ensures IsSimple(code) ==> Count(code, '\n') < MaxSimpleLines - 1
  {
    SimpleLines(SplitLines(code))
  }

  // ---------------------------------------------------------------------------
  // The scanner itself

  /** `isSimpleCode`: one pass over the lines, tracking an open `import (` block and
      stopping at the first import line that names none of the allowed packages. */
  method IsSimpleCode(code: string) returns (simple: bool)
    ensures simple == IsSimple(code)
    ensures |SplitLines(code)| >= MaxSimpleLines ==> !simple
  {
    var lines := SplitLines(code);
    if |lines| < MaxSimpleLines {
      var hasComplexImports := false;
      var inImportBlock := false;
      for i := 0 to |lines|
        invariant !hasComplexImports
        invariant inImportBlock == InBlockBefore(lines, i)
        invariant forall k :: 0 <= k < i ==> !Offending(lines, k)
      {
        var trimmedLine := TrimSpace(lines[i]);
        if HasPrefix(trimmedLine, "import (") {
          inImportBlock := true;
          continue;
        }
        if inImportBlock && trimmedLine == ")" {
          inImportBlock := false;
          continue;
        }
        if inImportBlock || HasPrefix(trimmedLine, "import ") {
          if !Contains(trimmedLine, FmtImport) && !Contains(trimmedLine, StringsImport)
             && !Contains(trimmedLine, TimeImport) && !Contains(trimmedLine, MathImport)
             && !Contains(trimmedLine, OsImport) {
            assert Offending(lines, i);
            hasComplexImports := true;
            break;
          }
        }
      }
      return !hasComplexImports;
    }
    return false;
  }

  // ---------------------------------------------------------------------------
  // Properties of the classifier

  /** Lines whose trimmed form never starts with "import (" never open a block. */
  lemma {:induction false} NoOpenerNoBlock(lines: seq<string>, k: nat)
    requires k <= |lines|
    requires forall j :: 0 <= j < k ==> !HasPrefix(TrimSpace(lines[j]), "import (")
    ensures !InBlockBefore(lines, k)
  {
    if k > 0 {
      NoOpenerNoBlock(lines, k - 1);
    }
  }

  /** A line opening a block also starts with "import ". */
  lemma OpenerStartsWithImport(t: string)
    ensures HasPrefix(t, "import (") ==> HasPrefix(t, "import ")
  {
    if HasPrefix(t, "import (") {
      assert t[..|"import "|] == "import (" [..|"import "|];
    }
  }

  /** Code of fewer than 30 lines none of which starts, once trimmed, with "import "
      is simple. (A line starting with "import (" also starts with "import ".) */
  lemma NoImportsIsSimple(code: string)
    requires |SplitLines(code)| < MaxSimpleLines
    requires forall k :: 0 <= k < |SplitLines(code)| ==> !HasPrefix(TrimSpace(SplitLines(code)[k]), "import ")
    ensures IsSimple(code)
  {
    NoImportLinesSimple(SplitLines(code));
  }

  lemma NoImportLinesSimple(lines: seq<string>)
    requires |lines| < MaxSimpleLines
    requires forall k :: 0 <= k < |lines| ==> !HasPrefix(TrimSpace(lines[k]), "import ")
    ensures SimpleLines(lines)
  {
    forall k | 0 <= k < |lines| ensures !HasPrefix(TrimSpace(lines[k]), "import (") {
      OpenerStartsWithImport(TrimSpace(lines[k]));
    }
    forall k | 0 <= k < |lines| ensures !Offending(lines, k) {
      NoOpenerNoBlock(lines, k);
    }
  }

  /** Outside a block, one `import "x"` or `import alias "x"` line decides the matter:
      if it is the only line that starts with "import ", the code (of fewer than 30
      lines) is simple exactly when that line contains one of the five quoted names. */
  lemma SingleImportDecides(code: string, k: nat)
    requires |SplitLines(code)| < MaxSimpleLines && k < |SplitLines(code)|
    requires HasPrefix(TrimSpace(SplitLines(code)[k]), "import ")
    requires !HasPrefix(TrimSpace(SplitLines(code)[k]), "import (")
    requires forall j :: 0 <= j < |SplitLines(code)| && j != k ==> !HasPrefix(TrimSpace(SplitLines(code)[j]), "import ")
    ensures IsSimple(code) <==> MentionsAllowedImport(TrimSpace(SplitLines(code)[k]))
  {
    SingleImportLineDecides(SplitLines(code), k);
  }

  lemma SingleImportLineDecides(lines: seq<string>, k: nat)
    requires |lines| < MaxSimpleLines && k < |lines|
    requires HasPrefix(TrimSpace(lines[k]), "import ")
    requires !HasPrefix(TrimSpace(lines[k]), "import (")
    requires forall j :: 0 <= j < |lines| && j != k ==> !HasPrefix(TrimSpace(lines[j]), "import ")
    ensures SimpleLines(lines) <==> MentionsAllowedImport(TrimSpace(lines[k]))
  {
    forall j | 0 <= j < |lines| ensures !HasPrefix(TrimSpace(lines[j]), "import (") {
      OpenerStartsWithImport(TrimSpace(lines[j]));
    }
    NoOpenerNoBlock(lines, k);
    forall j | 0 <= j < |lines| && j != k ensures !Offending(lines, j) {
      NoOpenerNoBlock(lines, j);
    }
    assert Offending(lines, k) <==> !MentionsAllowedImport(TrimSpace(lines[k]));
  }

  /** The `import (` opener and the `)` that closes an open block are skipped, not checked. */
  lemma OpenerAndCloserSkipped(inBlock: bool, t: string)
    ensures HasPrefix(t, "import (") ==> !Offends(inBlock, t) && BlockAfter(inBlock, t)
    ensures inBlock && t == ")" ==> !Offends(inBlock, t) && !BlockAfter(inBlock, t)
  {
  }

  /** Inside an open block every line other than an opener and the closing ")" is
      checked: it offends exactly when it names none of the allowed packages, so a
      comment line there offends unless it happens to mention one. */
  lemma InBlockLineChecked(lines: seq<string>, k: nat)
    requires k < |lines| && InBlockBefore(lines, k)
    requires !HasPrefix(TrimSpace(lines[k]), "import (") && TrimSpace(lines[k]) != ")"
    ensures Offending(lines, k) <==> !MentionsAllowedImport(TrimSpace(lines[k]))
  {
  }

  /** A one-line block such as `import ("fmt")` still starts with "import (", so it
      opens a block that its own ")" does not close: the next line is checked as if
      it were inside the block. */
  lemma OneLineBlockStaysOpen(lines: seq<string>, k: nat)
    requires k + 1 < |lines| && HasPrefix(TrimSpace(lines[k]), "import (")
    requires !HasPrefix(TrimSpace(lines[k + 1]), "import (") && TrimSpace(lines[k + 1]) != ")"
    ensures InBlockBefore(lines, k + 1)
    ensures Offending(lines, k + 1) <==> !MentionsAllowedImport(TrimSpace(lines[k + 1]))
  {
  }

  /** So `import ("fmt")` followed by ordinary code is not simple. */
  lemma OneLineBlockExample()
    ensures !SimpleLines(["import (\"fmt\")", "func main() {}"])
  {
    var lines := ["import (\"fmt\")", "func main() {}"];
    assert TrimSpace(lines[0]) == lines[0];
    assert HasPrefix(lines[0], "import (");
    var t := lines[1];
    assert TrimSpace(t) == t;
    assert !HasPrefix(t, "import (");
    assert '"' !in t;
    AbsentFirstCharNotContained(t, FmtImport);
    AbsentFirstCharNotContained(t, StringsImport);
    AbsentFirstCharNotContained(t, TimeImport);
    AbsentFirstCharNotContained(t, MathImport);
    AbsentFirstCharNotContained(t, OsImport);
    OneLineBlockStaysOpen(lines, 0);
    assert Offending(lines, 1);
  }

  /** In particular a blank line inside an open block makes the code non-simple. */
  lemma BlankLineInBlockNotSimple(code: string, k: nat)
    requires k < |SplitLines(code)|
    requires InBlockBefore(SplitLines(code), k)
    requires AllSpace(SplitLines(code)[k])
    ensures !IsSimple(code)
  {
    var lines := SplitLines(code);
    TrimSpaceEmptyIff(lines[k]);
    assert TrimSpace(lines[k]) == "";
    assert !Contains("", FmtImport) && !Contains("", StringsImport) && !Contains("", TimeImport)
        && !Contains("", MathImport) && !Contains("", OsImport);
    assert Offending(lines, k);
  }

  /** Whether a block is open at line `k` depends only on the lines before it. */
  lemma {:induction false} InBlockBeforeDependsOnPrefix(lines1: seq<string>, lines2: seq<string>, k: nat)
    requires k <= |lines1| && k <= |lines2|
    requires lines1[..k] == lines2[..k]
    ensures InBlockBefore(lines1, k) == InBlockBefore(lines2, k)
  {
    if k > 0 {
      assert lines1[..k - 1] == lines1[..k][..k - 1];
      assert lines2[..k - 1] == lines2[..k][..k - 1];
      assert lines1[k - 1] == lines1[..k][k - 1];
      assert lines2[k - 1] == lines2[..k][k - 1];
      InBlockBeforeDependsOnPrefix(lines1, lines2, k - 1);
    }
  }

  /** The verdict is fixed by the lines up to and including the first offending one:
      any two line lists that agree that far are both non-simple. */
  lemma OffenceDependsOnPrefix(lines1: seq<string>, lines2: seq<string>, k: nat)
    requires k < |lines1| && k < |lines2|
    requires lines1[..k + 1] == lines2[..k + 1]
    requires Offending(lines1, k)
    ensures Offending(lines2, k)
    ensures !SimpleLines(lines1) && !SimpleLines(lines2)
  {
    assert lines1[..k] == lines1[..k + 1][..k] && lines2[..k] == lines2[..k + 1][..k];
    assert lines1[k] == lines1[..k + 1][k] && lines2[k] == lines2[..k + 1][k];
    InBlockBeforeDependsOnPrefix(lines1, lines2, k);
    assert Offending(lines2, k);
    assert !SimpleLines(lines1) by { assert !(0 <= k < |lines1| ==> !Offending(lines1, k)); }
    assert !SimpleLines(lines2) by { assert !(0 <= k < |lines2| ==> !Offending(lines2, k)); }
  }

  /** Nothing written after an offending line makes the code simple again. */
  lemma OffenceSurvivesAppend(code: string, rest: string, k: nat)
    requires k < |SplitLines(code)|
    requires Offending(SplitLines(code), k)
    ensures !IsSimple(code + "\n" + rest)
  {
    var lines := SplitLines(code);
    var longer := SplitLines(code + "\n" + rest);
    SplitAtNewline(code, rest);
    assert longer[..k + 1] == lines[..k + 1];
    OffenceDependsOnPrefix(lines, longer, k);
  }

  // ---------------------------------------------------------------------------
  // Request triage

  /** An HTTP request as the handler sees it: the method and the outcome of reading
      the whole body (`io.ReadAll`), which may fail. */
  datatype Request = Request(httpMethod: string, body: Result<string, string>)

  datatype Response = Response(status: nat, contentType: string, body: string)

  /** Which executor ran the code. */
  datatype Executor = Quick | Full

  /** `http.Error(w, msg, code)`: the status, a plain-text content type and the
      message followed by a newline. */
  function ErrorResponse(status: nat, msg: string): (r: Response)
    ensures r.status == status && |r.body| == |msg| + 1
    ensures r.body[..|msg|] == msg && r.body[|msg|] == '\n'
  {
    Response(status, "text/plain; charset=utf-8", msg + "\n")
  }

  /** `HandleRun`. The executors (`QuickExecuteGoCode`, `ExecuteGoCode`) are parameters
      returning the program's output or an error message; `used` says which one ran. */
  method HandleRun(req: Request, quick: string -> Result<string, string>, full: string -> Result<string, string>)
    returns (resp: Response, used: Option<Executor>)
    ensures req.httpMethod != "POST" ==> resp == ErrorResponse(StatusMethodNotAllowed, "Method not allowed") && used == None
    ensures req.httpMethod == "POST" && req.body.Failure? ==>
      resp == ErrorResponse(StatusBadRequest, "Error reading request body") && used == None
    ensures req.httpMethod == "POST" && req.body == Success("") ==>
      resp == ErrorResponse(StatusBadRequest, "No code provided") && used == None
    ensures req.httpMethod == "POST" && req.body.Success? && req.body.value != "" ==>
      var code := req.body.value;
      var outcome := if IsSimple(code) then quick(code) else full(code);
      && used == Some(if IsSimple(code) then Quick else Full)
      && resp.status == StatusOK && resp.contentType == "text/plain"
      && resp.body == (if outcome.Failure? then "Error: " + outcome.error else outcome.value)
    ensures used.Some? <==> resp.status == StatusOK
  {
    if req.httpMethod != "POST" {
      return ErrorResponse(StatusMethodNotAllowed, "Method not allowed"), None;
    }
    if req.body.Failure? {
      return ErrorResponse(StatusBadRequest, "Error reading request body"), None;
    }
    var code := req.body.value;
    if code == "" {
      return ErrorResponse(StatusBadRequest, "No code provided"), None;
    }
    var output: Result<string, string>;
    var simple := IsSimpleCode(code);
    if simple {
      output := quick(code);
      used := Some(Quick);
    } else {
      output := full(code);
      used := Some(Full);
    }
    if output.Failure? {
      var errorMsg := "Error: " + output.error;
      return Response(StatusOK, "text/plain", errorMsg), used;
    }
    resp := Response(StatusOK, "text/plain", output.value);
  }
}
