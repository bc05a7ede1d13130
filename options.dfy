/**
 * The option dictionary `coho_options` and how positional string arguments
 * of `global_options` change it.
 */
module Options {
  import opened Common

  /** A value stored in the option dictionary or as a ring property. */
  datatype Value =
    | Flag(b: bool)
    | Number(i: int)
    | Word(s: string)
    | Location(p: Path)
    | Nothing                    // Python None
    | Object(handle: nat)        // any other Python object

  /** Python truthiness of a value. */
  predicate Truthy(v: Value)
  {
    match v
    case Flag(b) => b
    case Number(i) => i != 0
    case Word(s) => s != ""
    case Location(p) => true
    case Nothing => false
    case Object(_) => true
  }

  type OptionMap = map<string, Value>

  /** The defaults `reset` restores. */
  const DefaultOptions: OptionMap := map[
    "NrCandidates" := Number(1000),
    "SingularCutoff" := Number(70),
    "autolift" := Number(1),
    "autoliftElAb" := Number(0),
    "reload" := Flag(true),
    "save" := Flag(true),
    "sparse" := Flag(false),
    "useMTX" := Flag(true),
    "use_web" := Flag(true)
  ]

  /** A positional argument of `global_options`. */
  datatype Arg = Str(s: string) | NonStr(truthy: bool)

  predicate Falsy(a: Arg)
  {
    match a
    case Str(s) => s == ""
    case NonStr(t) => !t
  }

  /** Words that only change the logging level or the log format. */
  const LoggingWords: set<string> :=
    {"warn", "info", "debug", "cputime", "nocputime", "walltime", "nowalltime", "time", "notime"}

  predicate IsNegation(s: string)
  {
    |s| > 1 && s[..2] == "no"
  }

  /** Does the word change an option at all? */
  predicate SetsOption(s: string)
  {
    s !in LoggingWords
  }

  /** The option a word sets: the word itself, or the word without its leading "no". */
  function OptionName(s: string): string
  {
    if IsNegation(s) then s[2..] else s
  }

  /** One positional word applied to the option dictionary. */
  function ApplyWord(opts: OptionMap, s: string): OptionMap
  {
    if !SetsOption(s) then opts
    else opts[OptionName(s) := Flag(!IsNegation(s))]
  }

  /** The words applied one after another, from left to right. */
  function ApplyWords(opts: OptionMap, words: seq<string>): OptionMap
    decreases |words|
  {
    if words == [] then opts
    else ApplyWord(ApplyWords(opts, words[..|words| - 1]), words[|words| - 1])
  }

  predicate Touches(s: string, k: string)
  {
    SetsOption(s) && OptionName(s) == k
  }

  /** An option no word names keeps its entry, present or absent. */
  lemma {:induction false} ApplyWordsKeepsOthers(opts: OptionMap, words: seq<string>, k: string)
    requires forall i :: 0 <= i < |words| ==> !Touches(words[i], k)
    ensures k in ApplyWords(opts, words) <==> k in opts
    ensures k in opts ==> ApplyWords(opts, words)[k] == opts[k]
    decreases |words|
  {
    if words != [] {
      ApplyWordsKeepsOthers(opts, words[..|words| - 1], k);
    }
  }

  /**
   * The last word naming an option decides it: `True` for the plain word,
   * `False` for the word with a leading "no".
   */
  lemma {:induction false} ApplyWordsLastWins(opts: OptionMap, words: seq<string>, i: nat, k: string)
    requires i < |words| && Touches(words[i], k)
    requires forall j :: i < j < |words| ==> !Touches(words[j], k)
    ensures k in ApplyWords(opts, words)
    ensures ApplyWords(opts, words)[k] == Flag(!IsNegation(words[i]))
    decreases |words|
  {
    if i < |words| - 1 {
      ApplyWordsLastWins(opts, words[..|words| - 1], i, k);
    }
  }

  /** Applying the same words twice gives the same dictionary as applying them once. */
  lemma {:induction false} ApplyWordsIdempotent(opts: OptionMap, words: seq<string>)
    ensures ApplyWords(ApplyWords(opts, words), words) == ApplyWords(opts, words)
  {
    var once := ApplyWords(opts, words);
    var twice := ApplyWords(once, words);
    forall k
      ensures k in twice <==> k in once
      ensures k in twice ==> twice[k] == once[k]
    {
      if i :| 0 <= i < |words| && Touches(words[i], k) {
        var last := LastTouching(words, k, i);
        ApplyWordsLastWins(opts, words, last, k);
        ApplyWordsLastWins(once, words, last, k);
      } else {
        ApplyWordsKeepsOthers(once, words, k);
      }
    }
  }

  /** The position of the last word naming `k`, at or after `i`. */
  ghost function LastTouching(words: seq<string>, k: string, i: nat): (j: nat)
    requires i < |words| && Touches(words[i], k)
    ensures i <= j < |words| && Touches(words[j], k)
    ensures forall m :: j < m < |words| ==> !Touches(words[m], k)
    decreases |words| - i
  {
    if exists m :: i < m < |words| && Touches(words[m], k) then
      var m :| i < m < |words| && Touches(words[m], k);
      LastTouching(words, k, m)
    else i
  }

  /** The strings among the arguments, in order. */
  function Words(args: seq<Arg>): (ws: seq<string>)
    requires forall i :: 0 <= i < |args| ==> args[i].Str?
    ensures |ws| == |args|
    ensures forall i :: 0 <= i < |args| ==> ws[i] == args[i].s
  {
    if args == [] then [] else Words(args[..|args| - 1]) + [args[|args| - 1].s]
  }

  /** Index of the first argument that is not a string, or the length. */
  function FirstNonString(args: seq<Arg>): (n: nat)
    ensures n <= |args|
    ensures forall i :: 0 <= i < n ==> args[i].Str?
    ensures n < |args| ==> args[n].NonStr?
  {
    if args == [] then 0
    else if args[0].NonStr? then 0
    else 1 + FirstNonString(args[1..])
  }

  /** Applying the words of one more string argument applies its word last. */
  lemma ApplyWordsStep(opts: OptionMap, args: seq<Arg>, i: nat)
    requires i < |args| && forall j :: 0 <= j <= i ==> args[j].Str?
    ensures ApplyWords(opts, Words(args[..i + 1])) == ApplyWord(ApplyWords(opts, Words(args[..i])), args[i].s)
  {
    assert args[..i + 1][..i] == args[..i];
    var ws := Words(args[..i + 1]);
    assert ws[..i] == Words(args[..i]);
  }

  /** The first non-string argument is where the strings stop. */
  lemma FirstNonStringIs(args: seq<Arg>, i: nat)
    requires i <= |args| && forall j :: 0 <= j < i ==> args[j].Str?
    requires i < |args| ==> args[i].NonStr?
    ensures FirstNonString(args) == i
  {
  }
}
