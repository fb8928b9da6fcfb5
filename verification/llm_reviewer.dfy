/**
 * The AI reviewer of src/llm_reviewer.py: an object holding the provider (or
 * None when it could not be built), the prompt it sends for one file, and the
 * read-or-empty of a file's content.
 */
module LlmReviewer {
  import opened Wrappers
  import opened Text
  import opened Workspace
  import opened LlmProviders

  const MockReview := "AI Review (Mock): Provider not initialized."
  const KoreaPublic := "korea_public"

  /** Eight and twelve spaces: the indentation the triple-quoted literals keep. */
  const Indent8 := "        "
  const Indent12 := Indent8 + "    "

  /** The NIS guide paragraph, line by line, as the source's literal holds it. */
  const KoreaLines: seq<string> := [
    "CRITICAL: You must review this code against 'South Korea NIS Software Development Security Guide'.",
    "1. Check for Personal Information Leakage.",
    "2. Check for SQL Injection and OS Command Injection.",
    "3. Check for Weak Encryption (MD5, SHA1 are BANNED).",
    "4. Check for Uncontrolled Logging (System.out.println is BANNED)."]

  /** Each line on its own line, twelve spaces in. */
  function IndentedLines(lines: seq<string>): string
    decreases |lines|
  {
    if lines == [] then "" else "\n" + Indent12 + lines[0] + IndentedLines(lines[1..])
  }

  /** The compliance paragraph: the guide text for `korea_public`, empty for every other mode. */
  function ComplianceInstruction(mode: Option<string>): (s: string)
    ensures s != "" <==> mode == Some(KoreaPublic)
  {
    if mode == Some(KoreaPublic) then IndentedLines(KoreaLines) + "\n" + Indent12 else ""
  }

  /** The opening of the prompt, up to the compliance paragraph. */
  const Preamble := "\n"
    + Indent8 + "You are a senior code reviewer. Review the following code for bugs, security issues, and style improvements.\n"
    + Indent8 + "Be concise and constructive.\n"
    + Indent8

  /** Between the compliance paragraph and the file path. */
  const FileLabel := "\n" + Indent8 + "\n" + Indent8 + "File: "

  /** Between the file path and the code. */
  const CodeLabel := "\n" + Indent8 + "\n" + Indent8 + "Code:\n" + Indent8

  /** After the code. */
  const Closing := "\n" + Indent8

  /** The prompt sent for one file. */
  function Prompt(path: string, code: string, mode: Option<string>): string {
    Preamble + ComplianceInstruction(mode) + FileLabel + path + CodeLabel + code + Closing
  }

  /**
   * The prompt quotes the compliance paragraph, the file path and the code
   * verbatim, each at its place; apart from the paragraph it does not depend
   * on the mode.
   */
  lemma PromptQuotes(path: string, code: string, mode: Option<string>)
    ensures var p, g := Prompt(path, code, mode), ComplianceInstruction(mode);
      && OccursAt(p, g, |Preamble|)
      && OccursAt(p, path, |Preamble| + |g| + |FileLabel|)
      && OccursAt(p, code, |Preamble| + |g| + |FileLabel| + |path| + |CodeLabel|)
      && Contains(p, path) && Contains(p, code)
      && p == Preamble + g + (FileLabel + path + CodeLabel + code + Closing)
  {
    PartsOccur(Preamble, ComplianceInstruction(mode), FileLabel, path, CodeLabel, code, Closing);
  }

  /** Where the parts of a seven-part concatenation sit. */
  lemma PartsOccur(s1: string, s2: string, s3: string, s4: string, s5: string, s6: string, s7: string)
    ensures var p := s1 + s2 + s3 + s4 + s5 + s6 + s7;
      && OccursAt(p, s2, |s1|)
      && OccursAt(p, s4, |s1| + |s2| + |s3|)
      && OccursAt(p, s6, |s1| + |s2| + |s3| + |s4| + |s5|)
      && Contains(p, s4) && Contains(p, s6)
      && p == s1 + s2 + (s3 + s4 + s5 + s6 + s7)
  {
    var p := s1 + s2 + s3 + s4 + s5 + s6 + s7;
    assert p == s1 + s2 + (s3 + s4 + s5 + s6 + s7);
    OccursInside(s1, s2, s3 + s4 + s5 + s6 + s7);
    assert p == (s1 + s2 + s3) + s4 + (s5 + s6 + s7);
    OccursInside(s1 + s2 + s3, s4, s5 + s6 + s7);
    assert p == (s1 + s2 + s3 + s4 + s5) + s6 + s7;
    OccursInside(s1 + s2 + s3 + s4 + s5, s6, s7);
  }

  class LLMReviewer {
    const providerName: string
    /** The provider, or None when building it failed. */
    var provider: Option<Provider>

    /**
     * `__init__`: the provider the factory builds, or None when the factory
     * raises. It raises for an unknown name, and for an SDK-backed provider
     * whose client cannot be built (`clientBuilt` false). Ollama builds no
     * client. The constructor itself never fails.
     */
    constructor(providerName: string, kwargs: Kwargs, clientBuilt: bool)
      ensures this.providerName == providerName
      ensures provider.None? <==>
        GetProvider(providerName, kwargs).Err? || (!clientBuilt && providerName != "ollama")
      ensures provider.Some? ==> provider.value == GetProvider(providerName, kwargs).value
    {
      this.providerName := providerName;
      var built := GetProvider(providerName, kwargs);
      if built.Ok? && (clientBuilt || built.value.Ollama?) {
        provider := Some(built.value);
      } else {
        provider := None;
      }
    }
  }

  /**
   * `review_code` of a reviewer whose provider is `provider`: the provider's
   * review of the prompt for the file, or the mock text without a provider.
   */
  function ReviewCode(provider: Option<Provider>, path: string, code: string, mode: Option<string>,
                      sdk: string -> SdkOutcome, http: string -> HttpOutcome): (r: string)
    ensures provider.None? ==> r == MockReview
    ensures provider.Some? ==> r == GenerateReview(provider.value, Prompt(path, code, mode), sdk, http)
  {
    if provider.Some? then GenerateReview(provider.value, Prompt(path, code, mode), sdk, http) else MockReview
  }

  /**
   * `get_code_content`: the whole file, or the empty string when it is
   * missing; other read failures are not caught (Err).
   */
  function GetCodeContent(disk: Disk, path: string): (r: Result<string, string>)
    ensures r.Err? <==> ReadFile(disk, path).ReadError?
    ensures ReadFile(disk, path).NotFound? ==> r == Ok("")
    ensures ReadFile(disk, path).Read? ==> r == Ok(disk[path].text)
  {
    match ReadFile(disk, path)
    case Read(content) => Ok(content)
    case NotFound => Ok("")
    case ReadError(reason) => Err(reason)
  }

  /** An unknown provider name leaves the reviewer on the mock text, whatever the services do. */
  method UnknownProviderGivesMock(name: string, kwargs: Kwargs, path: string, code: string, mode: Option<string>,
                                 sdk: string -> SdkOutcome, http: string -> HttpOutcome) returns (r: string)
    requires name !in KnownNames
    ensures r == MockReview
  {
    var reviewer := new LLMReviewer(name, kwargs, true);
    r := ReviewCode(reviewer.provider, path, code, mode, sdk, http);
  }
}
