/**
 * The browser side of snake_bevy_wasm_pwa: the URL hash fragment is read as a
 * command line, the router picks a page from its first two words, and the Run
 * button turns the two input fields back into such a hash.  DOM calls are
 * modelled as a list of effects, in the order the code performs them; the two
 * phrase formatters of the library module are parameters.
 */
module MainMod {
  import opened Wrappers
  import opened Strings

  /** The synthetic word 0 of the argument list, like the executable name of a CLI program. */
  const AppName := "snake_bevy_wasm_pwa"
  /** The path the Run button opens, before its hash fragment. */
  const AppPath := "/snake_bevy_wasm_pwa/"

  const DivBody := "div_body"
  const DivForErrors := "div_for_errors"
  const DivForInjecting := "div_for_wasm_html_injecting"
  const BtnRun := "btn_run"

  const MissingPrintArgument := "Error: Missing second argument for print."
  const MissingUpperArgument := "Error: Missing second argument for upper."
  const UnrecognizedArguments := "Error: Unrecognized arguments. Try \n http://localhost:4000/snake_bevy_wasm_pwa/#help"
  const BothArgumentsMandatory := "Error: Both arguments are mandatory."

  const HelpText :=
    "Welcome to snake_bevy_wasm_pwa !\n\n"
    + "This is a simple yet complete template for a PWA WASM program written in Rust.\n"
    + "The file structure is on purpose similar to a Rust CLI project and accepts similar arguments.\n\n"
    + "http://localhost:4000/snake_bevy_wasm_pwa/\n"
    + "http://localhost:4000/snake_bevy_wasm_pwa/#help\n"
    + "http://localhost:4000/snake_bevy_wasm_pwa/#print/world\n"
    + "http://localhost:4000/snake_bevy_wasm_pwa/#upper/world\n\n"
    + "This command should return an error:\n"
    + "http://localhost:4000/snake_bevy_wasm_pwa/#upper/WORLD\n\n"
    + "\U{00A9} 2025 bestia.dev  MIT License github.com/automation-tasks-rs/cargo-auto\n"

  /** The two HTML templates that are injected whole (their placeholder substitution is not modelled). */
  datatype Markup = Header | PageWithInputs

  /** One call into the browser. */
  datatype Effect =
    | AddListenerForOnHashChange
    | InjectHtml(elementId: string, markup: Markup)
    | AddListenerToButton(buttonId: string)
    | SetInnerText(elementId: string, text: string)
    | OpenUrl(url: string)

  /** `lib_mod::format_hello_phrase`: not part of this model, so any function of this type. */
  type HelloFormatter = string -> string
  /** `lib_mod::format_upper_hello_phrase`; an error carries the text its Display shows. */
  type UpperFormatter = string -> Result<string, string>

  // ---------------------------------------------------------------- hash fragment

  /** The hash with its first character replaced by "/" and the application name put in front. */
  function CommandLine(hash: string): string
  {
    AppName + (if hash == [] then "" else [Slash] + hash[1..])
  }

  /** An empty hash leaves the application name alone on the command line. */
  lemma SplitEmptyHash(hash: string)
    requires hash == []
    ensures Split(CommandLine(hash)) == [AppName]
  {
    assert CommandLine(hash) == AppName;
    SplitNoSlash(AppName);
  }

  /** Otherwise the application name is a word of its own before the pieces of the hash. */
  lemma SplitNonEmptyHash(hash: string)
    requires hash != []
    ensures Split(CommandLine(hash)) == [AppName] + Split(hash[1..])
  {
    assert CommandLine(hash) == AppName + [Slash] + hash[1..];
    SplitNoSlash(AppName);
    SplitAround(AppName, hash[1..]);
  }

  /**
   * The argument list `get_args_from_hash_fragment` returns for `hash`: word 0 is always
   * the application name, an empty hash gives nothing else, and otherwise the words
   * after it are the text after the first character split on "/", one more than it has slashes.
   */
  function HashArgs(hash: string): (args: seq<string>)
    ensures |args| >= 1 && args[0] == AppName
    ensures hash == [] ==> args == [AppName]
    ensures hash != [] ==> args == [AppName] + Split(hash[1..])
    ensures hash != [] ==> |args| == 2 + multiset(hash[1..])[Slash]
  {
    if hash == [] then
      SplitEmptyHash(hash);
      Split(CommandLine(hash))
    else
      SplitNonEmptyHash(hash);
      SplitCount(hash[1..]);
      Split(CommandLine(hash))
  }

  /** `get_args_from_hash_fragment` with `location.hash()` as its parameter. */
  method GetArgsFromHashFragment(hash: string) returns (args: seq<string>)
    ensures args == HashArgs(hash)
  {
    var fragment := hash;
    if fragment != [] {
      fragment := [Slash] + fragment[1..];
    }
    fragment := AppName + fragment;
    assert fragment == CommandLine(hash);
    args := SplitOnSlash(fragment);
  }

  /** The words after the application name, joined with "/", give back the hash without its '#'. */
  lemma HashArgsJoin(hash: string)
    requires hash != []
    ensures Join(HashArgs(hash)[1..]) == hash[1..]
  {
    JoinSplit(hash[1..]);
  }

  /** The last word is empty exactly when the hash is the bare first character or ends with "/". */
  lemma HashArgsTrailingSlash(hash: string)
    requires hash != []
    ensures var args := HashArgs(hash);
      args[|args| - 1] == "" <==> (|hash| == 1 || hash[|hash| - 1] == Slash)
  {
  }

  /** Two slash-free words after '#' come back as exactly those two words. */
  lemma HashArgsTwoWords(a1: string, a2: string)
    requires Slash !in a1 && Slash !in a2
    ensures HashArgs("#" + a1 + [Slash] + a2) == [AppName, a1, a2]
  {
    var hash := "#" + a1 + [Slash] + a2;
    var body := a1 + [Slash] + a2;
    assert hash[1..] == body;
    var args := HashArgs(hash);
    assert args == [AppName] + Split(body);
    SplitAround(a1, a2);
    SplitNoSlash(a1);
    SplitNoSlash(a2);
  }

  // ---------------------------------------------------------------- router

  /** `args.get(i)`. */
  function Arg(args: seq<string>, i: nat): Option<string>
  {
    if i < |args| then Some(args[i]) else None
  }

  /** The text shown in the body for a formatted phrase. */
  function ResultText(phrase: string): string
  {
    "The result is\n" + phrase + "\n"
  }

  /** `page_with_inputs`: the form goes into the body, then the Run button gets its listener. */
  const PageWithInputsEffects := [InjectHtml(DivBody, PageWithInputs), AddListenerToButton(BtnRun)]

  /** `upper_greet_name`: on success the phrase goes into the body; an error is handed back untouched. */
  function UpperGreetName(name: string, upper: UpperFormatter): (r: Result<seq<Effect>, string>)
    ensures upper(name).Ok? <==> r.Ok?
    ensures r.Ok? ==> r.value == [SetInnerText(DivBody, ResultText(upper(name).value))]
    ensures r.Err? ==> r.error == upper(name).error
  {
    match upper(name)
    case Ok(phrase) => Ok([SetInnerText(DivBody, ResultText(phrase))])
    case Err(e) => Err(e)
  }

  /** The element an effect writes into, if any. */
  function Target(e: Effect): Option<string>
  {
    match e
    case InjectHtml(id, _) => Some(id)
    case SetInnerText(id, _) => Some(id)
    case _ => None
  }

  /** Some effect of `es` writes into element `id`. */
  predicate WritesInto(es: seq<Effect>, id: string)
  {
    exists i :: 0 <= i < |es| && Target(es[i]) == Some(id)
  }

  /** The match on words 1 and 2 in `routing_by_arguments`. */
  function Dispatch(args: seq<string>, hello: HelloFormatter, upper: UpperFormatter): seq<Effect>
  {
    match Arg(args, 1)
    case None => PageWithInputsEffects
    case Some(first) =>
      if first == "page_with_inputs" then PageWithInputsEffects
      else if first == "help" then [SetInnerText(DivBody, HelpText)]
      else if first == "print" then
        (match Arg(args, 2)
         case Some(name) => [SetInnerText(DivBody, ResultText(hello(name)))]
         case None => [SetInnerText(DivForErrors, MissingPrintArgument)])
      else if first == "upper" then
        (match Arg(args, 2)
         case Some(name) =>
           (match UpperGreetName(name, upper)
            case Ok(effects) => effects
            case Err(e) => [SetInnerText(DivForErrors, "Error: " + e)])
         case None => [SetInnerText(DivForErrors, MissingUpperArgument)])
      else [SetInnerText(DivForErrors, UnrecognizedArguments)]
  }

  /** What every page starts with: the hash-change listener, then the header. */
  const Frame := [AddListenerForOnHashChange, InjectHtml(DivForInjecting, Header)]

  /**
   * `routing_by_arguments`: the listener and the header come first, every time; after them
   * the route either writes into the body or reports into the error area, never both and
   * never neither, and it never opens a URL.
   */
  function Route(args: seq<string>, hello: HelloFormatter, upper: UpperFormatter): (effects: seq<Effect>)
    ensures |effects| >= 3 && effects[..2] == Frame
    ensures WritesInto(effects[2..], DivBody) != WritesInto(effects[2..], DivForErrors)
    ensures forall i :: 0 <= i < |effects| ==> !effects[i].OpenUrl?
  {
    var d := Dispatch(args, hello, upper);
    assert Target(d[0]).Some?;
    assert (Frame + d)[2..] == d;
    Frame + d
  }

  /** `on_hash_change` (and `main`, which does the same): read the hash, then route. */
  method OnHashChange(hash: string, hello: HelloFormatter, upper: UpperFormatter) returns (effects: seq<Effect>)
    ensures effects == Route(HashArgs(hash), hello, upper)
  {
    var args := GetArgsFromHashFragment(hash);
    effects := Route(args, hello, upper);
  }

  /** No first word and the first word "page_with_inputs" render the same input page. */
  lemma RouteDefaultPage(rest: seq<string>, hello: HelloFormatter, upper: UpperFormatter)
    ensures Route([AppName], hello, upper) == Route([AppName, "page_with_inputs"] + rest, hello, upper)
    ensures Route([AppName], hello, upper) == Frame + PageWithInputsEffects
  {
  }

  /** "help" shows the help text in the body, whatever follows. */
  lemma RouteHelp(args: seq<string>, hello: HelloFormatter, upper: UpperFormatter)
    requires |args| >= 2 && args[1] == "help"
    ensures Route(args, hello, upper) == Frame + [SetInnerText(DivBody, HelpText)]
  {
  }

  /** Any other first word, the empty one included, is reported as unrecognized whatever follows. */
  lemma RouteUnrecognized(args: seq<string>, hello: HelloFormatter, upper: UpperFormatter)
    requires |args| >= 2
    requires args[1] != "page_with_inputs" && args[1] != "help" && args[1] != "print" && args[1] != "upper"
    ensures Route(args, hello, upper) == Frame + [SetInnerText(DivForErrors, UnrecognizedArguments)]
  {
  }

  /** "print" and "upper" without a second word report their own missing-argument error. */
  lemma RouteMissingSecond(first: string, hello: HelloFormatter, upper: UpperFormatter)
    requires first == "print" || first == "upper"
    ensures Route([AppName, first], hello, upper)
         == Frame + [SetInnerText(DivForErrors, if first == "print" then MissingPrintArgument else MissingUpperArgument)]
  {
  }

  /** "print" with a second word, even an empty one, shows the formatted greeting of that word. */
  lemma RoutePrint(args: seq<string>, hello: HelloFormatter, upper: UpperFormatter)
    requires |args| >= 3 && args[1] == "print"
    ensures Route(args, hello, upper) == Frame + [SetInnerText(DivBody, ResultText(hello(args[2])))]
  {
  }

  /**
   * "upper" with a second word: the body gets the phrase exactly when the formatter succeeds,
   * and the error area gets "Error: " and its message exactly when it fails.
   */
  lemma RouteUpper(args: seq<string>, hello: HelloFormatter, upper: UpperFormatter)
    requires |args| >= 3 && args[1] == "upper"
    ensures match upper(args[2])
      case Ok(phrase) => Route(args, hello, upper) == Frame + [SetInnerText(DivBody, ResultText(phrase))]
      case Err(e) => Route(args, hello, upper) == Frame + [SetInnerText(DivForErrors, "Error: " + e)]
    ensures WritesInto(Route(args, hello, upper)[2..], DivBody) <==> upper(args[2]).Ok?
  {
  }

  /**
   * Were the hash a single character, word 1 would be empty, which is not the missing
   * word: the router would report it as unrecognized.  A browser never reports a lone
   * '#' as the hash (see BareHashUrl), so this case is not reachable from a page.
   */
  lemma RouteBareHash(c: char, hello: HelloFormatter, upper: UpperFormatter)
    ensures HashArgs([c]) == [AppName, ""]
    ensures Route(HashArgs([c]), hello, upper) == Frame + [SetInnerText(DivForErrors, UnrecognizedArguments)]
  {
    HashArgsBare(c);
    RouteUnrecognized([AppName, ""], hello, upper);
  }

  /** A one-character hash parses to the application name and one empty word. */
  lemma HashArgsBare(c: char)
    ensures HashArgs([c]) == [AppName, ""]
  {
  }

  /** The router looks at words 1 and 2 only. */
  lemma RouteReadsWordsOneAndTwo(a: seq<string>, b: seq<string>, hello: HelloFormatter, upper: UpperFormatter)
    requires Arg(a, 1) == Arg(b, 1) && Arg(a, 2) == Arg(b, 2)
    ensures Route(a, hello, upper) == Route(b, hello, upper)
  {
  }

  // ---------------------------------------------------------------- Run button

  /**
   * What the browser reports as `location.hash` for a URL: from the first '#' on, or
   * nothing when there is no '#' or nothing follows it.  No '#' comes before it.
   */
  function Fragment(url: string): (hash: string)
    ensures |hash| <= |url| && hash == url[|url| - |hash|..]
    ensures hash == [] || (|hash| >= 2 && hash[0] == '#')
    ensures hash != [] ==> '#' !in url[..|url| - |hash|]
  {
    if url == [] then []
    else if url[0] == '#' then (if |url| == 1 then [] else url)
    else Fragment(url[1..])
  }

  /** Conversely, a first '#' with something after it starts the fragment. */
  lemma {:induction false} FragmentFromFirstHash(url: string, i: nat)
    requires i < |url| - 1 && url[i] == '#' && '#' !in url[..i]
    ensures Fragment(url) == url[i..]
  {
    if i > 0 {
      assert url[0] in url[..i];
      assert url[1..][..i - 1] == url[1..i];
      assert forall k :: 1 <= k < i ==> url[k] in url[..i];
      FragmentFromFirstHash(url[1..], i - 1);
    }
  }

  /** A prefix that holds no '#' does not change the fragment. */
  lemma {:induction false} FragmentAfterPath(path: string, rest: string)
    requires '#' !in path
    ensures Fragment(path + rest) == Fragment(rest)
  {
    if path != [] {
      assert (path + rest)[0] == path[0] && path[0] != '#';
      assert (path + rest)[1..] == path[1..] + rest;
      FragmentAfterPath(path[1..], rest);
    } else {
      assert path + rest == rest;
    }
  }

  /** A '#'-free path followed by a real hash: the browser reports that hash, after that path. */
  lemma UrlFragment(path: string, hash: string)
    requires '#' !in path
    requires |hash| >= 2 && hash[0] == '#'
    ensures Fragment(path + hash) == hash
    ensures (path + hash)[..|path + hash| - |hash|] == path
  {
    FragmentAfterPath(path, hash);
  }

  /**
   * The URL of the application with a bare '#' reaches the router as the empty hash,
   * so it shows the input page.
   */
  lemma BareHashUrl(hello: HelloFormatter, upper: UpperFormatter)
    ensures Fragment(AppPath + "#") == []
    ensures Route(HashArgs(Fragment(AppPath + "#")), hello, upper) == Frame + PageWithInputsEffects
  {
    FragmentAfterPath(AppPath, "#");
  }

  /**
   * `on_click_btn_run` on the two input values: with both non-empty it opens the application
   * path with `#arg1/arg2` as hash; with either empty it reports the error and opens nothing.
   */
  function OnClickBtnRun(arg1: string, arg2: string): (effects: seq<Effect>)
    ensures |effects| == 1
    ensures effects[0].OpenUrl? <==> arg1 != "" && arg2 != ""
    ensures effects[0].OpenUrl? ==>
      var url := effects[0].url;
      Fragment(url) == "#" + arg1 + [Slash] + arg2 && url[..|url| - |Fragment(url)|] == AppPath
    ensures !effects[0].OpenUrl? ==> effects[0] == SetInnerText(DivForErrors, BothArgumentsMandatory)
  {
    if arg1 != "" && arg2 != "" then
      var url := AppPath + "#" + arg1 + "/" + arg2;
      UrlFragment(AppPath, "#" + arg1 + "/" + arg2);
      assert url == AppPath + ("#" + arg1 + [Slash] + arg2);
      [OpenUrl(url)]
    else
      [SetInnerText(DivForErrors, BothArgumentsMandatory)]
  }

  /**
   * Round trip of the Run button and the hash parser: two non-empty slash-free inputs come
   * back as words 1 and 2 of the opened page.
   */
  lemma ClickRoundTrip(arg1: string, arg2: string)
    requires arg1 != "" && arg2 != ""
    requires Slash !in arg1 && Slash !in arg2
    ensures OnClickBtnRun(arg1, arg2)[0].OpenUrl?
    ensures HashArgs(Fragment(OnClickBtnRun(arg1, arg2)[0].url)) == [AppName, arg1, arg2]
  {
    HashArgsTwoWords(arg1, arg2);
  }
}
