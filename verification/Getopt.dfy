/**
 The command line scanner `getopt`: the state kept between calls, the pure
 parser that iterating it amounts to, and the laws of that parser.
 */
module Getopt {

  // A `TCHAR *`
  datatype Pointer = Null | To(text: string)

  datatype Item = Item(letter: char, arg: Pointer)

  datatype Parsed = Parsed(items: seq<Item>, operands: seq<string>) {
    function Then(item: Item): Parsed {
      Parsed([item] + items, operands)
    }
  }

  // ---------- the option string ----------

  // `_tcschr`: the first place of a character.
  function StrChr(s: string, c: char): (place: int)
    ensures -1 <= place < |s|
  {
    if s == "" then -1
    else if s[0] == c then 0
    else
      var rest := StrChr(s[1..], c);
      if rest == -1 then -1 else rest + 1
  }

  lemma {:induction false} StrChrFinds(s: string, c: char)
    ensures StrChr(s, c) == -1 ==> c !in s
    ensures StrChr(s, c) != -1 ==> s[StrChr(s, c)] == c && c !in s[..StrChr(s, c)]
  {
    if s != "" && s[0] != c {
      StrChrFinds(s[1..], c);
      assert s == [s[0]] + s[1..];
      var rest := StrChr(s[1..], c);
      if rest != -1 {
        assert s[..rest + 1] == [s[0]] + s[1..][..rest];
      }
    }
  }

  datatype Kind = Unknown | Flag | Argument

  function KindOf(optstring: string, c: char): Kind {
    var place := StrChr(optstring, c);
    if place == -1 || c == ':' then Unknown
    else if place + 1 < |optstring| && optstring[place + 1] == ':' then Argument
    else Flag
  }

  lemma {:induction false} FirstPlace(pre: string, c: char, post: string)
    requires c !in pre
    ensures StrChr(pre + [c] + post, c) == |pre|
  {
    if pre != "" {
      FirstPlace(pre[1..], c, post);
      assert (pre + [c] + post)[1..] == pre[1..] + [c] + post;
      assert pre[0] in pre;
    }
  }

  /** A letter takes an argument if a colon follows its first place in the option string, and none otherwise. */
  lemma KindIsReadOff(pre: string, c: char, post: string)
    requires c != ':' && c !in pre
    ensures KindOf(pre + [c] + ":" + post, c) == Argument
    ensures (post != "" ==> post[0] != ':') ==> KindOf(pre + [c] + post, c) == Flag
  {
    FirstPlace(pre, c, ":" + post);
    assert pre + [c] + (":" + post) == pre + [c] + ":" + post;
    FirstPlace(pre, c, post);
  }

  /** Exactly the colon and the letters that do not occur are unknown. */
  lemma UnknownExactlyWhen(optstring: string, c: char)
    ensures KindOf(optstring, c) == Unknown <==> c == ':' || c !in optstring
  {
    StrChrFinds(optstring, c);
  }

  // ---------- the parser ----------

  predicate OptionLike(arg: string) {
    |arg| >= 2 && arg[0] == '-'
  }

  function ParseArgs(optstring: string, args: seq<string>): Parsed
    decreases |args|, 0
  {
    if args == [] || !OptionLike(args[0]) then Parsed([], args)
    else if args[0] == "--" then Parsed([], args[1..])
    else ParseCluster(optstring, args[0][1..], args[1..])
  }

  function ParseCluster(optstring: string, cluster: string, args: seq<string>): Parsed
    decreases |args|, 1 + |cluster|
  {
    if cluster == "" then ParseArgs(optstring, args)
    else
      var c, rest := cluster[0], cluster[1..];
      match KindOf(optstring, c)
      case Unknown => ParseCluster(optstring, rest, args).Then(Item('?', Null))
      case Flag => ParseCluster(optstring, rest, args).Then(Item(c, Null))
      case Argument =>
        if rest != "" then ParseArgs(optstring, args).Then(Item(c, To(rest)))
        else if args != [] then ParseArgs(optstring, args[1..]).Then(Item(c, To(args[0])))
        else ParseArgs(optstring, args).Then(Item('?', Null))
  }

  lemma WordStep(optstring: string, word: string, args: seq<string>)
    requires OptionLike(word)
    ensures ParseArgs(optstring, [word] + args)
            == if word == "--" then Parsed([], args) else ParseCluster(optstring, word[1..], args)
  {
    assert ([word] + args)[1..] == args;
  }

  lemma LetterStep(optstring: string, c: char, rest: string, args: seq<string>)
    ensures ParseCluster(optstring, [c] + rest, args)
            == if KindOf(optstring, c) == Unknown then ParseCluster(optstring, rest, args).Then(Item('?', Null))
               else if KindOf(optstring, c) == Flag then ParseCluster(optstring, rest, args).Then(Item(c, Null))
               else if rest != "" then ParseArgs(optstring, args).Then(Item(c, To(rest)))
               else if args != [] then ParseArgs(optstring, args[1..]).Then(Item(c, To(args[0])))
               else Parsed([Item('?', Null)], [])
  {
    assert ([c] + rest)[1..] == rest;
  }

  predicate IsSuffix(operands: seq<string>, args: seq<string>) {
    |operands| <= |args| && operands == args[|args| - |operands|..]
  }

  /** The operands are the last arguments, untouched. */
  lemma {:induction false} OperandsAreASuffix(optstring: string, args: seq<string>)
    ensures IsSuffix(ParseArgs(optstring, args).operands, args)
    decreases |args|, 0
  {
    if args != [] && OptionLike(args[0]) && args[0] != "--" {
      ClusterOperands(optstring, args[0][1..], args[1..]);
    }
  }

  lemma {:induction false} ClusterOperands(optstring: string, cluster: string, args: seq<string>)
    ensures IsSuffix(ParseCluster(optstring, cluster, args).operands, args)
    decreases |args|, 1 + |cluster|
  {
    OperandsAreASuffix(optstring, args);
    if cluster != "" {
      LetterStep(optstring, cluster[0], cluster[1..], args);
      assert cluster == [cluster[0]] + cluster[1..];
      ClusterOperands(optstring, cluster[1..], args);
      if args != [] {
        OperandsAreASuffix(optstring, args[1..]);
        var operands := ParseArgs(optstring, args[1..]).operands;
        assert IsSuffix(operands, args);
      }
    }
  }

  // ---------- the scanner ----------

  function First(args: seq<string>): Pointer {
    if args == [] then Null else To(args[0])
  }

  class Scanner {
    var optind: nat
    var optarg: Pointer
    var next: Pointer

    constructor ()
      ensures optind == 0 && next == Null
    {
      optind := 0;
      optarg := Null;
      next := Null;
    }

    // What is left of the argument being scanned.
    function Cluster(): string
      reads this
    {
      if optind == 0 || next == Null then "" else next.text
    }

    // The arguments not yet looked at: `argv[0]` is the program.
    function Ahead(argv: seq<string>): seq<string>
      reads this
    {
      var start := if optind == 0 then 1 else optind;
      if start < |argv| then argv[start..] else []
    }

    // What iterating from here has still to return.
    function Remaining(argv: seq<string>, optstring: string): Parsed
      reads this
    {
      ParseCluster(optstring, Cluster(), Ahead(argv))
    }

    // Less to scan than before, in arguments or in the one at hand.
    twostate predicate Advanced(argv: seq<string>)
      reads this
    {
      || |Ahead(argv)| < |old(Ahead(argv))|
      || (Ahead(argv) == old(Ahead(argv)) && |Cluster()| < |old(Cluster())|)
    }

    // The next option letter, or '?' for a bad one.
    method GetOpt(argv: seq<string>, optstring: string) returns (eof: bool, c: char)
      modifies this
      ensures eof ==> old(Remaining(argv, optstring)) == Parsed([], Ahead(argv)) && optarg == First(Ahead(argv))
      ensures !eof ==> old(Remaining(argv, optstring)) == Remaining(argv, optstring).Then(Item(c, optarg))
      ensures !eof ==> Advanced(argv)
      ensures 1 <= optind && old(optind) <= optind && (optind <= |argv| || optind == 1 || optind == old(optind))
    {
      if optind == 0 {
        next := Null;
      }
      optarg := Null;
      if next == Null || next.text == "" {
        eof := NextWord(argv, optstring);
        if eof {
          return true, '\0';
        }
      }
      c := Letter(argv, optstring);
      return false, c;
    }

    // The middle of `getopt`: moves `next` to the letters of the next argument, if those are options.
    method NextWord(argv: seq<string>, optstring: string) returns (eof: bool)
      requires optarg == Null && Cluster() == ""
      modifies this
      ensures eof ==> old(Remaining(argv, optstring)) == Parsed([], Ahead(argv)) && optarg == First(Ahead(argv))
      ensures !eof ==> Remaining(argv, optstring) == old(Remaining(argv, optstring))
      ensures !eof ==> optarg == Null && next.To? && next.text != "" && |Ahead(argv)| < |old(Ahead(argv))|
      ensures 1 <= optind && old(optind) <= optind && (optind <= |argv| || optind == 1 || optind == old(optind))
    {
      if optind == 0 {
        optind := optind + 1;
      }
      assert Ahead(argv) == old(Ahead(argv)) && (optind < |argv| ==> Ahead(argv)[0] == argv[optind]);
      if optind >= |argv| || !OptionLike(argv[optind]) {
        assert ParseArgs(optstring, Ahead(argv)) == Parsed([], Ahead(argv));
        if optind < |argv| {
          optarg := To(argv[optind]);
        }
        return true;
      }
      assert old(Ahead(argv)) == [argv[optind]] + argv[optind + 1..];
      WordStep(optstring, argv[optind], argv[optind + 1..]);
      if argv[optind] == "--" {
        optind := optind + 1;
        if optind < |argv| {
          optarg := To(argv[optind]);
        }
        return true;
      }
      next := To(argv[optind][1..]);
      optind := optind + 1;
      return false;
    }

    // The rest of `getopt`, from where `next` points at a letter.
    method Letter(argv: seq<string>, optstring: string) returns (c: char)
      requires optind >= 1 && optarg == Null && next.To? && next.text != ""
      modifies this
      ensures old(Remaining(argv, optstring)) == Remaining(argv, optstring).Then(Item(c, optarg))
      ensures Advanced(argv)
      ensures optind == old(optind) || optind == old(optind) + 1 <= |argv|
    {
      c := next.text[0];
      next := To(next.text[1..]);
      LetterStep(optstring, c, next.text, Ahead(argv));
      assert old(Cluster()) == [c] + next.text;
      var cp := StrChr(optstring, c);
      if cp == -1 || c == ':' {
        return '?';
      }
      cp := cp + 1;
      if cp < |optstring| && optstring[cp] == ':' {
        if next.text != "" {
          optarg := next;
          next := Null;
        } else if optind < |argv| {
          optarg := To(argv[optind]);
          optind := optind + 1;
          assert Ahead(argv) == old(Ahead(argv))[1..];
        } else {
          return '?';
        }
      }
    }
  }

  // The loop of the documentation's example: call until EOF.
  method Scan(argv: seq<string>, optstring: string) returns (items: seq<Item>, optind: nat, optarg: Pointer)
    ensures var p := ParseArgs(optstring, if argv == [] then [] else argv[1..]);
            && items == p.items && optarg == First(p.operands)
            && optind == if argv == [] then 1 else |argv| - |p.operands|
  {
    var s := new Scanner();
    items := [];
    ghost var all := s.Remaining(argv, optstring);
    var eof := false;
    while !eof
      invariant fresh(s) && (s.optind <= |argv| || s.optind == 1)
      invariant !eof ==> all == Before(items, s.Remaining(argv, optstring))
      invariant eof ==> all == Parsed(items, s.Ahead(argv)) && s.optarg == First(s.Ahead(argv)) && 1 <= s.optind
      decreases !eof, |s.Ahead(argv)|, |s.Cluster()|
    {
      var c;
      eof, c := s.GetOpt(argv, optstring);
      if !eof {
        BeforeThen(items, Item(c, s.optarg), s.Remaining(argv, optstring));
        items := items + [Item(c, s.optarg)];
      }
    }
    return items, s.optind, s.optarg;
  }

  function Before(items: seq<Item>, p: Parsed): Parsed {
    Parsed(items + p.items, p.operands)
  }

  lemma BeforeThen(items: seq<Item>, item: Item, p: Parsed)
    ensures Before(items, p.Then(item)) == Before(items + [item], p)
  {
    assert items + ([item] + p.items) == items + [item] + p.items;
  }

  // ---------- the laws ----------

  // A word of one letter, followed by `args`.
  lemma SingleLetter(optstring: string, c: char, args: seq<string>)
    requires c != '-'
    ensures ParseArgs(optstring, ["-" + [c]] + args)
            == if KindOf(optstring, c) == Unknown then ParseArgs(optstring, args).Then(Item('?', Null))
               else if KindOf(optstring, c) == Flag then ParseArgs(optstring, args).Then(Item(c, Null))
               else if args != [] then ParseArgs(optstring, args[1..]).Then(Item(c, To(args[0])))
               else Parsed([Item('?', Null)], [])
  {
    WordStep(optstring, "-" + [c], args);
    assert ("-" + [c])[1..] == [c] + "";
    LetterStep(optstring, c, "", args);
  }

  /** A letter that the option string does not have is reported. */
  lemma UnknownLetterIsReported(optstring: string, c: char, args: seq<string>)
    requires c != '-' && (c == ':' || c !in optstring)
    ensures ParseArgs(optstring, ["-" + [c]] + args) == ParseArgs(optstring, args).Then(Item('?', Null))
  {
    UnknownExactlyWhen(optstring, c);
    SingleLetter(optstring, c, args);
  }

  /** A letter without a colon in the option string stands alone. */
  lemma FlagParses(pre: string, c: char, post: string, args: seq<string>)
    requires c != '-' && c != ':' && c !in pre && (post != "" ==> post[0] != ':')
    ensures ParseArgs(pre + [c] + post, ["-" + [c]] + args) == ParseArgs(pre + [c] + post, args).Then(Item(c, Null))
  {
    KindIsReadOff(pre, c, post);
    SingleLetter(pre + [c] + post, c, args);
  }

  /** A letter with a colon in the option string takes the next word, and is reported if there is none. */
  lemma OptionTakesTheNextWord(pre: string, c: char, post: string, args: seq<string>)
    requires c != '-' && c != ':' && c !in pre
    ensures var optstring := pre + [c] + ":" + post;
            ParseArgs(optstring, ["-" + [c]] + args)
            == if args == [] then Parsed([Item('?', Null)], []) else ParseArgs(optstring, args[1..]).Then(Item(c, To(args[0])))
  {
    KindIsReadOff(pre, c, post);
    SingleLetter(pre + [c] + ":" + post, c, args);
  }

  /** Letters combine: "-a" and "-tail" may be written "-atail", exactly when neither word reads "--". */
  lemma ClusteringLaw(optstring: string, a: char, tail: string, args: seq<string>)
    requires KindOf(optstring, a) != Argument && tail != ""
    ensures ParseArgs(optstring, ["-" + [a] + tail] + args) == ParseArgs(optstring, ["-" + [a], "-" + tail] + args)
            <==> a != '-' && tail != "-"
  {
    var one, two, three := "-" + [a] + tail, "-" + [a], "-" + tail;
    assert one[1..] == [a] + tail && two[1..] == [a] + "" && three[1..] == tail;
    WordStep(optstring, one, args);
    LetterStep(optstring, a, tail, args);
    assert [two, three] + args == [two] + ([three] + args);
    WordStep(optstring, two, [three] + args);
    LetterStep(optstring, a, "", [three] + args);
    WordStep(optstring, three, args);
    LetterStep(optstring, tail[0], tail[1..], args);
    assert tail == [tail[0]] + tail[1..];
  }

  /** An argument may be written beside its letter, exactly when it is not empty and the letter is not '-'. */
  lemma AttachingLaw(optstring: string, n: char, arg: string, args: seq<string>)
    requires KindOf(optstring, n) == Argument
    ensures ParseArgs(optstring, ["-" + [n] + arg] + args) == ParseArgs(optstring, ["-" + [n], arg] + args)
            <==> n != '-' && arg != ""
  {
    var one, two := "-" + [n] + arg, "-" + [n];
    assert one[1..] == [n] + arg && two[1..] == [n] + "";
    WordStep(optstring, one, args);
    LetterStep(optstring, n, arg, args);
    assert [two, arg] + args == [two] + ([arg] + args);
    WordStep(optstring, two, [arg] + args);
    LetterStep(optstring, n, "", [arg] + args);
    assert ([arg] + args)[1..] == args;
    if arg == "" && n != '-' {
      var l, r := ParseArgs(optstring, [one] + args), ParseArgs(optstring, [two, arg] + args);
      assert r.items[0] == Item(n, To(""));
      if args != [] && args[0] == "" {
        OperandsAreASuffix(optstring, args[1..]);
        assert |l.operands| < |args| == |r.operands|;
      } else {
        assert l.items[0] != r.items[0];
      }
    }
  }

  // ---------- printing ----------

  // One argument word: flags, then perhaps an option with an argument.
  datatype Word =
    | Flags(flags: string)
    | Attached(flags: string, letter: char, arg: string)
    | Separate(flags: string, letter: char, arg: string)
  {
    function Letters(): string {
      if Flags? then flags
      else if Attached? then flags + [letter] + arg
      else flags + [letter]
    }

    function Args(): seq<string> {
      ["-" + Letters()] + if Separate? then [arg] else []
    }

    function Items(): seq<Item> {
      FlagItems(flags) + if Flags? then [] else [Item(letter, To(arg))]
    }

    predicate Valid(optstring: string) {
      && Letters() != "" && Letters() != "-"
      && (forall i :: 0 <= i < |flags| ==> KindOf(optstring, flags[i]) == Flag)
      && (!Flags? ==> KindOf(optstring, letter) == Argument)
      && (Attached? ==> arg != "")
    }
  }

  function FlagItems(flags: string): seq<Item> {
    if flags == "" then [] else [Item(flags[0], Null)] + FlagItems(flags[1..])
  }

  function Print(words: seq<Word>): seq<string> {
    if words == [] then [] else words[0].Args() + Print(words[1..])
  }

  function Meaning(words: seq<Word>): seq<Item> {
    if words == [] then [] else words[0].Items() + Meaning(words[1..])
  }

  lemma {:induction false} FlagsParse(optstring: string, flags: string, tail: string, args: seq<string>)
    requires forall i :: 0 <= i < |flags| ==> KindOf(optstring, flags[i]) == Flag
    ensures ParseCluster(optstring, flags + tail, args) == Before(FlagItems(flags), ParseCluster(optstring, tail, args))
  {
    if flags == "" {
      assert flags + tail == tail;
    } else {
      FlagsParse(optstring, flags[1..], tail, args);
      LetterStep(optstring, flags[0], flags[1..] + tail, args);
      assert flags + tail == [flags[0]] + (flags[1..] + tail);
    }
  }

  // Flags, then an option that finds its argument in `arg` or, when that is empty, in the next word.
  lemma FlagsThenArgument(optstring: string, flags: string, letter: char, arg: string, args: seq<string>)
    requires forall i :: 0 <= i < |flags| ==> KindOf(optstring, flags[i]) == Flag
    requires KindOf(optstring, letter) == Argument && (arg == "" ==> args != [])
    ensures ParseCluster(optstring, flags + [letter] + arg, args)
            == if arg != "" then Before(FlagItems(flags) + [Item(letter, To(arg))], ParseArgs(optstring, args))
               else Before(FlagItems(flags) + [Item(letter, To(args[0]))], ParseArgs(optstring, args[1..]))
  {
    FlagsParse(optstring, flags, [letter] + arg, args);
    assert flags + [letter] + arg == flags + ([letter] + arg);
    LetterStep(optstring, letter, arg, args);
    if arg != "" {
      BeforeThen(FlagItems(flags), Item(letter, To(arg)), ParseArgs(optstring, args));
    } else {
      BeforeThen(FlagItems(flags), Item(letter, To(args[0])), ParseArgs(optstring, args[1..]));
    }
  }

  lemma FlagsWord(optstring: string, w: Word, args: seq<string>)
    requires w.Valid(optstring) && w.Flags?
    ensures ParseArgs(optstring, w.Args() + args) == Before(w.Items(), ParseArgs(optstring, args))
  {
    LettersStep(optstring, w.flags, args);
    FlagsParse(optstring, w.flags, "", args);
    assert w.Args() + args == ["-" + w.flags] + args && w.flags + "" == w.flags && w.Items() == FlagItems(w.flags);
  }

  lemma AttachedWord(optstring: string, w: Word, args: seq<string>)
    requires w.Valid(optstring) && w.Attached?
    ensures ParseArgs(optstring, w.Args() + args) == Before(w.Items(), ParseArgs(optstring, args))
  {
    LettersStep(optstring, w.Letters(), args);
    FlagsThenArgument(optstring, w.flags, w.letter, w.arg, args);
    assert w.Args() + args == ["-" + w.Letters()] + args;
  }

  lemma SeparateWord(optstring: string, w: Word, args: seq<string>)
    requires w.Valid(optstring) && w.Separate?
    ensures ParseArgs(optstring, w.Args() + args) == Before(w.Items(), ParseArgs(optstring, args))
  {
    var rest := [w.arg] + args;
    LettersStep(optstring, w.Letters(), rest);
    FlagsThenArgument(optstring, w.flags, w.letter, "", rest);
    assert w.Args() + args == ["-" + w.Letters()] + rest && rest[1..] == args && w.Letters() + "" == w.Letters();
  }

  lemma WordParses(optstring: string, w: Word, args: seq<string>)
    requires w.Valid(optstring)
    ensures ParseArgs(optstring, w.Args() + args) == Before(w.Items(), ParseArgs(optstring, args))
  {
    match w
    case Flags(_) => FlagsWord(optstring, w, args);
    case Attached(_, _, _) => AttachedWord(optstring, w, args);
    case Separate(_, _, _) => SeparateWord(optstring, w, args);
  }

  lemma LettersStep(optstring: string, letters: string, args: seq<string>)
    requires letters != "" && letters != "-"
    ensures ParseArgs(optstring, ["-" + letters] + args) == ParseCluster(optstring, letters, args)
  {
    WordStep(optstring, "-" + letters, args);
    assert ("-" + letters)[1..] == letters;
  }

  // How the operands are set apart: by "--", or by a first one that is no option: "", "-" or anything without a dash.
  predicate Ends(last: seq<string>, operands: seq<string>) {
    || last == ["--"] + operands
    || (last == operands && (operands == [] || operands[0] == "" || operands[0] == "-" || operands[0][0] != '-'))
  }

  lemma OperandsParse(optstring: string, last: seq<string>, operands: seq<string>)
    requires Ends(last, operands)
    ensures ParseArgs(optstring, last) == Parsed([], operands)
  {
    if last == ["--"] + operands {
      WordStep(optstring, "--", operands);
    }
  }

  lemma OneMoreWord(optstring: string, w: Word, rest: seq<string>, items: seq<Item>, p: Parsed)
    requires w.Valid(optstring) && ParseArgs(optstring, rest) == Before(items, p)
    ensures ParseArgs(optstring, w.Args() + rest) == Before(w.Items() + items, p)
  {
    WordParses(optstring, w, rest);
    assert w.Items() + (items + p.items) == w.Items() + items + p.items;
  }

  lemma PrintStep(words: seq<Word>, args: seq<string>)
    requires words != []
    ensures Print(words) + args == words[0].Args() + (Print(words[1..]) + args)
  {
  }

  lemma {:induction false} WordsParse(optstring: string, words: seq<Word>, args: seq<string>)
    requires forall i :: 0 <= i < |words| ==> words[i].Valid(optstring)
    ensures ParseArgs(optstring, Print(words) + args) == Before(Meaning(words), ParseArgs(optstring, args))
  {
    if words == [] {
      assert Print(words) + args == args;
    } else {
      WordsParse(optstring, words[1..], args);
      PrintStep(words, args);
      OneMoreWord(optstring, words[0], Print(words[1..]) + args, Meaning(words[1..]), ParseArgs(optstring, args));
    }
  }

  /** Parsing undoes printing: every sequence of words and every list of operands comes back. */
  lemma ParsePrint(optstring: string, words: seq<Word>, last: seq<string>, operands: seq<string>)
    requires forall i :: 0 <= i < |words| ==> words[i].Valid(optstring)
    requires Ends(last, operands)
    ensures ParseArgs(optstring, Print(words) + last) == Parsed(Meaning(words), operands)
  {
    WordsParse(optstring, words, last);
    OperandsParse(optstring, last, operands);
  }

  // The options one to a word, each argument a word of its own.
  function Plain(items: seq<Item>): seq<Word> {
    if items == [] then [] else [PlainFor(items[0])] + Plain(items[1..])
  }

  function PlainFor(item: Item): Word {
    if item.arg == Null then Flags([item.letter]) else Separate("", item.letter, item.arg.text)
  }

  predicate Printable(optstring: string, item: Item) {
    item.letter != '-' && KindOf(optstring, item.letter) == if item.arg == Null then Flag else Argument
  }

  /** Any list of options, the letter '-' aside, and operands has an argument list that parses to it. */
  lemma EverythingIsPrintable(optstring: string, items: seq<Item>, operands: seq<string>)
    requires forall i :: 0 <= i < |items| ==> Printable(optstring, items[i])
    ensures ParseArgs(optstring, Print(Plain(items)) + (["--"] + operands)) == Parsed(items, operands)
  {
    PlainMeans(optstring, items);
    ParsePrint(optstring, Plain(items), ["--"] + operands, operands);
  }

  lemma {:induction false} PlainMeans(optstring: string, items: seq<Item>)
    requires forall i :: 0 <= i < |items| ==> Printable(optstring, items[i])
    ensures Meaning(Plain(items)) == items
    ensures forall i :: 0 <= i < |Plain(items)| ==> Plain(items)[i].Valid(optstring)
  {
    if items != [] {
      PlainMeans(optstring, items[1..]);
      PlainWord(optstring, items[0]);
      assert Plain(items)[1..] == Plain(items[1..]);
    }
  }

  lemma PlainWord(optstring: string, item: Item)
    requires Printable(optstring, item)
    ensures PlainFor(item).Valid(optstring) && PlainFor(item).Items() == [item]
  {
    var w := PlainFor(item);
    assert w.Letters() == [item.letter] && [item.letter][1..] == "" && FlagItems("") == [];
    assert item.arg == Null ==> FlagItems([item.letter]) == [Item(item.letter, Null)];
  }
}
