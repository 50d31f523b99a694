/** The lexical report of a source: lexer, parser and symbol collector together. */
module SourceSymbols {
  import opened Tokens
  import opened Lexing
  import opened LexicalEvents
  import opened Symbols
  import SymbolIndex
  import opened SymbolCollector
  import opened ProfileLexer
  import opened Recogniser
  import ParseBuilder
  import opened Grammar
  import SymbolEvents
  import Choices
  import OneDerivation
  import LoweringPlan
  import AliasNotes
  import opened CanonicalParser
  import opened CanonicalSource

  lemma {:induction false} TimedInRange(events: seq<Event>)
    requires Timed(events) && Clock(events) < OPEN
    ensures AllInRange(events)
  {
    if events != [] {
      var front := events[..|events| - 1];
      TimedInRange(front);
      assert forall k :: 0 <= k < |front| ==> events[k] == front[k];
    }
  }

  /** At every offset the report answers as the scope stack does. */
  ghost predicate AnswersLikeStack(symbols: seq<Symbol>, events: seq<Event>, end: nat) {
    forall name, b :: 0 <= b < end ==>
      var found := Lookup(symbols, name, b);
      var resolved := SymbolIndex.ResolveDef(SymbolIndex.Stack(SymbolIndex.DoneAt(events, b)), name);
      found.Some? == resolved.Some? && (found.Some? ==> SymbolIndex.DefOf(found.value) == resolved.value)
  }

  ghost predicate ReferencesInside(symbols: seq<Symbol>) {
    forall s, k :: s in symbols && 0 <= k < |s.references| ==>
      s.from <= s.references[k].start < s.references[k].end <= s.until
  }

  /** The token list the parser reads. */
  ghost function SourceTokens(inRange: string -> bool, source: string, maxTokens: nat): (tokens: seq<Token>) {
    Tokenized(inRange, source, maxTokens).tokens + [Token(End, |source|, |source|)]
  }

  /** The tree derives the tokens of the source as a program. */
  ghost predicate IsDerivation(tokens: seq<Token>, tree: Tree) {
    OneDerivation.IsDerivation(ParseBuilder.KindsOf(tokens), tree)
  }

  /** What one pass over a source records: whether it is accepted, its tokens, symbols, imports and `let` aliases. */
  datatype Reading = Reading(clean: bool, tokens: seq<Token>, symbols: SymbolReport, imports: seq<Span>,
      aliases: seq<AliasNotes.Alias>)

  /** The reading of a run of events. */
  ghost predicate Reads(reading: Reading, source: string, events: seq<Event>) {
    var c := Collected(Limits(MAX_OCCURRENCES, MAX_SITES), events);
    && reading.symbols == SymbolReport(Finished(c, |source|), c.sites, c.truncated, c.sitesTruncated)
    && reading.imports == AliasNotes.ImportLog(reading.tokens, events)
    && reading.aliases == AliasNotes.AliasLog(reading.tokens, events)
  }

  /** Lexer, parser and collector. For an accepted source the events are those of its derivation. */
  method ReadSource(inRange: string -> bool, source: string, maxTokens: nat, maxNesting: nat)
    returns (reading: Reading, ghost events: seq<Event>, ghost tree: Tree)
    requires |source| < OPEN
    ensures reading.tokens == SourceTokens(inRange, source, maxTokens) && LoweringPlan.Ordered(reading.tokens)
    ensures Reads(reading, source, events) && reading.clean == Accepted(inRange, source, maxTokens, maxNesting)
    ensures Depth(events) == 0 && Timed(events) && Clock(events) <= |source| && AllInRange(events)
    ensures Accepted(inRange, source, maxTokens, maxNesting) ==>
              IsDerivation(reading.tokens, tree) && events == SymbolEvents.EventsOf(reading.tokens, 0, tree) &&
                KeysIncrease(events)
  {
    hide Collected, Finished, Timed, Clock, KeysIncrease, AllInRange, Depth, Lex, SymbolEvents.EventsOf, Yield,
      Derives, LoweringPlan.Ordered, Choices.Forced;
    var lexer := new Lexer(source, maxTokens, inRange);
    lexer.Tokenize();
    var parser := new Parser(lexer.tokens, maxNesting);
    LexOrdered(inRange, source, maxTokens);
    tree := parser.Parse();
    events := parser.notes.events;
    TokenWithin(inRange, source, maxTokens, lexer.tokens, parser.index);
    TimedInRange(events);
    var symbols := CollectEvents(parser.notes.events, |source|);
    reading := Reading(lexer.clean && parser.clean, lexer.tokens, symbols, parser.notes.imports, parser.notes.aliases);
    ParsedKinds(inRange, source, maxTokens, lexer.tokens, maxNesting);
    if Accepted(inRange, source, maxTokens, maxNesting) {
      AllDerived(inRange, source, maxTokens, lexer.tokens, parser.index, Yield(tree));
    }
  }

  /** The lexical report of a source, complete or not. References always lie inside their symbol's
      interval; for an accepted source the events are those of its derivation, and if its report is complete, lookups
      answer like the scope stack. */
  method CollectSymbols(inRange: string -> bool, source: string, maxTokens: nat, maxNesting: nat)
    returns (r: SymbolReport, ghost events: seq<Event>, ghost tree: Tree)
    requires |source| < OPEN
    ensures var c := Collected(Limits(MAX_OCCURRENCES, MAX_SITES), events);
            r == SymbolReport(Finished(c, |source|), c.sites, c.truncated, c.sitesTruncated)
    ensures Depth(events) == 0 && ReferencesInside(r.symbols)
    ensures Accepted(inRange, source, maxTokens, maxNesting) ==>
              var tokens := SourceTokens(inRange, source, maxTokens);
              IsDerivation(tokens, tree) && events == SymbolEvents.EventsOf(tokens, 0, tree)
    ensures Accepted(inRange, source, maxTokens, maxNesting) && !r.truncated ==>
      AnswersLikeStack(r.symbols, events, |source|)
  {
    hide Collected, Finished, Timed, Clock, KeysIncrease, AllInRange, Depth, AnswersLikeStack, ReferencesInside,
      SymbolEvents.EventsOf, Accepted,
      IsDerivation, SourceTokens, AliasNotes.AliasLog, AliasNotes.ImportLog, LoweringPlan.Ordered;
    var reading;
    reading, events, tree := ReadSource(inRange, source, maxTokens, maxNesting);
    r := reading.symbols;
    AllReferencesInside(events, |source|);
    if Accepted(inRange, source, maxTokens, maxNesting) && !r.truncated {
      AllOffsetsAgree(events, |source|);
    }
  }

  lemma {:induction false} ParsedKinds(inRange: string -> bool, source: string, maxTokens: nat, tokens: seq<Token>,
      maxNesting: nat)
    requires tokens == Tokenized(inRange, source, maxTokens).tokens + [Token(End, |source|, |source|)]
    ensures Parsed(Tokenized(inRange, source, maxTokens).tokens, maxNesting) ==
      Env(ParseBuilder.KindsOf(tokens), maxNesting)
  {
    hide Lex;
    var ts := Tokenized(inRange, source, maxTokens).tokens;
    assert ParseBuilder.KindsOf(tokens) == ParseBuilder.KindsOf(ts) + [End];
  }

  /** The parser stops at the `End` token, which is the last one. */
  lemma {:induction false} AllDerived(inRange: string -> bool, source: string, maxTokens: nat, tokens: seq<Token>,
      index: nat, ks: seq<Kind>)
    requires Tokenized(inRange, source, maxTokens).clean && tokens == SourceTokens(inRange, source, maxTokens)
    requires index < |tokens| && tokens[index].kind == End && ks == ParseBuilder.KindsOf(tokens)[..index]
    ensures ks + [End] == ParseBuilder.KindsOf(tokens)
  {
    hide Lex, SourceCut;
    CutFacts(inRange, source);
    var items := SourceCut(inRange, source).items;
    SolidKinds(items);
    EndIsLast(items, tokens, index);
    assert ks + [tokens[index].kind] == ParseBuilder.KindsOf(tokens);
  }

  lemma {:induction false} TokenWithin(inRange: string -> bool, source: string, maxTokens: nat, tokens: seq<Token>,
      k: nat)
    requires tokens == Tokenized(inRange, source, maxTokens).tokens + [Token(End, |source|, |source|)] && k < |tokens|
    ensures tokens[k].start <= |source|
  {
    hide Lex;
    LexSpans(inRange, source, Code, 0);
  }

  lemma {:induction false} AllReferencesInside(events: seq<Event>, end: nat)
    requires Timed(events) && AllInRange(events) && Clock(events) <= end < OPEN
    ensures ReferencesInside(Finished(Collected(Limits(MAX_OCCURRENCES, MAX_SITES), events), end))
  {
    hide Collected, Finished, Timed, Clock, AllInRange;
    var limits := Limits(MAX_OCCURRENCES, MAX_SITES);
    forall s, k | s in Finished(Collected(limits, events), end) && 0 <= k < |s.references|
      ensures s.from <= s.references[k].start < s.references[k].end <= s.until
    {
      SymbolIndex.ReferencesLieInside(limits, events, end, s, k);
    }
  }

  lemma {:induction false} AllOffsetsAgree(events: seq<Event>, end: nat)
    requires Timed(events) && KeysIncrease(events) && AllInRange(events) && end < OPEN
    requires !Collected(Limits(MAX_OCCURRENCES, MAX_SITES), events).truncated
    ensures AnswersLikeStack(Finished(Collected(Limits(MAX_OCCURRENCES, MAX_SITES), events), end), events, end)
  {
    hide Collected, Finished, Timed, KeysIncrease, AllInRange, Lookup, SymbolIndex.Stack, SymbolIndex.DoneAt,
      SymbolIndex.ResolveDef;
    var limits := Limits(MAX_OCCURRENCES, MAX_SITES);
    var symbols := Finished(Collected(limits, events), end);
    forall name, b | 0 <= b < end
      ensures var found := Lookup(symbols, name, b);
              var resolved := SymbolIndex.ResolveDef(SymbolIndex.Stack(SymbolIndex.DoneAt(events, b)), name);
              found.Some? == resolved.Some? && (found.Some? ==> SymbolIndex.DefOf(found.value) == resolved.value)
    {
      SymbolIndex.IndexAgreesWithStack(limits, events, end, name, b);
    }
  }
}
