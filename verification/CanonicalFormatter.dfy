/** The formatter object: it walks the tokens once, writing gaps, indentation and spellings. */
module CanonicalFormatter {
  import opened Tokens
  import opened Lexing
  import opened Tiling
  import opened Formatting

  datatype FormatResult = Done(text: string) | OutputTooLarge(actual: nat, maximum: nat)

  /** UTF-8 length of a character and of a text. */
  function CharBytes(c: char): (n: nat)
    ensures 1 <= n <= 4
  {
    if c as int < 0x80 then 1 else if c as int < 0x800 then 2 else if c as int < 0x10000 then 3 else 4
  }

  function ByteLength(s: string): (n: nat)
    ensures n >= |s|
  {
    if s == "" then 0 else ByteLength(s[..|s| - 1]) + CharBytes(s[|s| - 1])
  }

  predicate SolidEnd(s: string) {
    s == "" || !IsBlank(s[|s| - 1])
  }

  lemma {:induction false} JoinAppend(items: seq<Item>, item: Item)
    ensures Join(items + [item], "") == Join(items, "") + item.gap + item.text
  {
    if items == [] {
      assert [item][1..] == [];
      assert item.gap + item.text + "" == "" + item.gap + item.text;
    } else {
      JoinAppend(items[1..], item);
      assert (items + [item])[1..] == items[1..] + [item];
    }
  }

  /** The output limit is checked after the gap and after the token itself. */
  ghost predicate StepFits(max: nat, before: string, items: seq<Item>, n: nat)
    requires n < |items|
  {
    && ByteLength(before + GapText(Kinds(items), n, items[n].gap)) <= max
    && ByteLength(before + Laid(items, n).gap + Laid(items, n).text) <= max
  }

  /** ... and at the end, before the last trim and after the final newline. */
  ghost predicate EndFits(max: nat, cut: Cut, appendNewline: bool) {
    && ByteLength(Join(LaidOut(cut.items), "") + GapText(Kinds(cut.items), |cut.items|, cut.tail)) <= max
    && var f := Formatted(cut, appendNewline); ByteLength(Join(f.items, f.tail)) <= max
  }

  /** Exactly the runs that no check stops. */
  ghost predicate StaysWithin(max: nat, cut: Cut, appendNewline: bool) {
    && (forall n :: 0 <= n < |cut.items| ==> StepFits(max, Join(LaidOut(cut.items)[..n], ""), cut.items, n))
    && EndFits(max, cut, appendNewline)
  }

  class Formatter {
    const source: string
    const tokens: seq<Token>
    const maxOutputBytes: nat
    const appendTerminalNewline: bool
    var output: string
    var indentation: nat
    var atLineStart: bool
    var previous: Option<Kind>
    var lambdaParametersOpen: bool
    var previousLambdaDelimiterClosed: bool

    constructor (source: string, tokens: seq<Token>, maxOutputBytes: nat, appendTerminalNewline: bool)
      ensures this.source == source && this.tokens == tokens && this.maxOutputBytes == maxOutputBytes
      ensures this.appendTerminalNewline == appendTerminalNewline
      ensures output == "" && indentation == 0 && atLineStart && previous == None
      ensures !lambdaParametersOpen && !previousLambdaDelimiterClosed
    {
      this.source := source;
      this.tokens := tokens;
      this.maxOutputBytes := maxOutputBytes;
      this.appendTerminalNewline := appendTerminalNewline;
      output := "";
      indentation := 0;
      atLineStart := true;
      previous := None;
      lambdaParametersOpen := false;
      previousLambdaDelimiterClosed := false;
    }

    /** The layout state before token `n` is the one the token kinds determine. */
    ghost predicate StateAt(ks: seq<Kind>, n: nat)
      reads this
    {
      && n <= |ks|
      && indentation == Indentation(ks, n)
      && atLineStart == LineStart(ks, n)
      && previous == (if LineStart(ks, n) then None else Some(ks[n - 1]))
      && lambdaParametersOpen == LambdaOpen(ks, n)
      && previousLambdaDelimiterClosed == (n > 0 && ClosedLambdaBefore(ks, n))
    }

    predicate WithinLimit()
      reads this
    {
      ByteLength(output) <= maxOutputBytes
    }

    method WriteIndentation()
      modifies this`output, this`atLineStart
      ensures output == old(output) + if old(atLineStart) then Indent(indentation) else ""
      ensures !atLineStart
    {
      if !atLineStart {
        return;
      }
      var i := 0;
      while i < indentation
        invariant 0 <= i <= indentation
        invariant output == old(output) + Spaces(4 * i)
      {
        assert Spaces(4 * (i + 1)) == Spaces(4 * i) + "    ";
        output := output + "    ";
        i := i + 1;
      }
      atLineStart := false;
    }

    method TrimTrailing()
      modifies this`output
      ensures output == TrimEnd(old(output))
    {
      while output != "" && IsBlank(output[|output| - 1])
        invariant TrimEnd(output) == TrimEnd(old(output))
        decreases |output|
      {
        output := output[..|output| - 1];
      }
    }

    /** Keeps a comment fragment, drops ordinary blanks. */
    method WriteRawGap(gap: string, ghost ks: seq<Kind>, ghost n: nat) returns (preserved: bool)
      requires n <= |ks| && indentation == Indentation(ks, n) && atLineStart == LineStart(ks, n)
      modifies this`output, this`atLineStart
      ensures output == old(output) + GapText(ks, n, gap)
      ensures preserved == !AllBlank(gap)
      ensures atLineStart == (old(atLineStart) && !preserved)
    {
      hide AllBlank, Run, Indent, Indentation;
      if AllBlank(gap) {
        return false;
      }
      if atLineStart {
        WriteIndentation();
        output := output + gap[Run(gap, IsBlank)..];
      } else {
        output := output + gap;
      }
      atLineStart := false;
      return true;
    }

    method WriteNewline()
      modifies this`output, this`atLineStart
      ensures output == TrimEnd(old(output)) + "\n" && atLineStart
    {
      TrimTrailing();
      output := output + "\n";
      atLineStart := true;
    }

    /** One token: its gap, then a line break, or spacing and the token's own spelling. */
    method FormatToken(kind: Kind, gap: string, text: string, ghost items: seq<Item>, ghost n: nat) returns (fits: bool)
      requires n < |items| && items[n] == Item(gap, kind, text) && SolidText(text)
      requires StateAt(Kinds(items), n) && SolidEnd(output)
      modifies this
      ensures fits ==> StateAt(Kinds(items), n + 1)
      ensures fits ==> output == old(output) + Laid(items, n).gap + Laid(items, n).text && SolidEnd(output)
      ensures fits <==> StepFits(maxOutputBytes, old(output), items, n)
      ensures !fits ==> !WithinLimit()
    {
      hide NewGap, GapText, AllBlank, ByteLength, LambdaOpen, Indentation, TrimEnd, NeedsSpace, Indent, TokenLevel;
      ghost var ks := Kinds(items);
      GapParts(ks, n, gap);
      if kind == Newline {
        fits := FormatBreak(gap, ks, n);
      } else {
        fits := FormatWord(kind, gap, text, ks, n);
      }
    }

    method FormatBreak(gap: string, ghost ks: seq<Kind>, ghost n: nat) returns (fits: bool)
      requires n < |ks| && ks[n] == Newline && StateAt(ks, n) && SolidEnd(output)
      modifies this
      ensures fits ==> StateAt(ks, n + 1) && output == old(output) + TrimEnd(GapText(ks, n, gap)) + "\n"
      ensures fits <==> && ByteLength(old(output) + GapText(ks, n, gap)) <= maxOutputBytes
                        && ByteLength(old(output) + TrimEnd(GapText(ks, n, gap)) + "\n") <= maxOutputBytes
      ensures !fits ==> !WithinLimit()
    {
      hide GapText, AllBlank, ByteLength, LambdaOpen, Indentation, TrimEnd;
      var _ := WriteRawGap(gap, ks, n);
      if !WithinLimit() {
        return false;
      }
      TrimSolid(old(output), GapText(ks, n, gap));
      WriteNewline();
      previous := None;
      previousLambdaDelimiterClosed := false;
      StateStep(ks, n);
      fits := WithinLimit();
    }

    method FormatWord(kind: Kind, gap: string, text: string, ghost ks: seq<Kind>, ghost n: nat) returns (fits: bool)
      requires n < |ks| && ks[n] == kind && kind != Newline && StateAt(ks, n)
      modifies this
      ensures fits ==> StateAt(ks, n + 1)
      ensures fits ==> output == old(output) + (GapText(ks, n, gap) + Spacing(ks, n, !AllBlank(gap))) + text
      ensures fits <==> && ByteLength(old(output) + GapText(ks, n, gap)) <= maxOutputBytes
                        && ByteLength(old(output) + (GapText(ks, n, gap) + Spacing(ks, n,
                          !AllBlank(gap))) + text) <= maxOutputBytes
      ensures !fits ==> !WithinLimit()
    {
      hide GapText, AllBlank, ByteLength, LambdaOpen, Indentation, Spacing, TokenLevel;
      var preserved := WriteRawGap(gap, ks, n);
      if !WithinLimit() {
        return false;
      }
      WriteSpacing(kind, preserved, ks, n);
      output := output + text;
      fits := WithinLimit();
      PassToken(kind, ks, n);
      ghost var g, sp := GapText(ks, n, gap), Spacing(ks, n, preserved);
      assert old(output) + g + sp + text == old(output) + (g + sp) + text;
    }

    /** Indentation at the start of a line, or the space that separates two tokens. */
    method WriteSpacing(kind: Kind, preserved: bool, ghost ks: seq<Kind>, ghost n: nat)
      requires n < |ks| && ks[n] == kind && indentation == Indentation(ks, n)
      requires atLineStart == (LineStart(ks, n) && !preserved)
      requires previous == (if LineStart(ks, n) then None else Some(ks[n - 1]))
      requires lambdaParametersOpen == LambdaOpen(ks, n)
      requires previousLambdaDelimiterClosed == (n > 0 && ClosedLambdaBefore(ks, n))
      modifies this`output, this`atLineStart, this`indentation
      ensures output == old(output) + Spacing(ks, n, preserved)
      ensures indentation == TokenLevel(ks, n)
    {
      hide NeedsSpace, Indent, LambdaOpen, Indentation;
      if kind == CloseCurly && indentation > 0 {
        indentation := indentation - 1;
      }
      if atLineStart {
        WriteIndentation();
      } else if !preserved && previous.Some? &&
                NeedsSpace(previous.value, kind, previousLambdaDelimiterClosed, IsOperator(kind, "|") &&
                  lambdaParametersOpen) {
        output := output + " ";
      }
    }

    /** The layout state moves past a token other than a line break. */
    method PassToken(kind: Kind, ghost ks: seq<Kind>, ghost n: nat)
      requires n < |ks| && ks[n] == kind && kind != Newline
      requires indentation == TokenLevel(ks, n) && lambdaParametersOpen == LambdaOpen(ks, n)
      modifies this`indentation, this`previousLambdaDelimiterClosed, this`lambdaParametersOpen, this`previous,
        this`atLineStart
      ensures StateAt(ks, n + 1)
    {
      hide LambdaOpen, Indentation;
      StateStep(ks, n);
      if kind == OpenCurly {
        indentation := indentation + 1;
      }
      previousLambdaDelimiterClosed := IsOperator(kind, "|") && lambdaParametersOpen;
      if IsOperator(kind, "|") {
        lambdaParametersOpen := !lambdaParametersOpen;
      }
      previous := Some(kind);
      atLineStart := false;
    }

    /** Walks all tokens; the result is the formatted text unless the output limit was passed. */
    method Format(ghost cut: Cut) returns (r: FormatResult)
      requires source == Join(cut.items, cut.tail) && Solid(cut.items)
      requires tokens == TokensAt(cut.items, 0) + [Token(End, |source|, |source|)]
      requires StateAt(Kinds(cut.items), 0) && output == ""
      modifies this
      ensures r.Done? ==> var f := Formatted(cut, appendTerminalNewline); r.text == Join(f.items, f.tail)
      ensures r.Done? <==> StaysWithin(maxOutputBytes, cut, appendTerminalNewline)
      ensures r.OutputTooLarge? ==> r.maximum == maxOutputBytes < r.actual
    {
      hide Laid, Formatted, ByteLength, Join, TokensAt, Kinds, StateAt, StepFits, EndFits;
      var cursor: nat := 0;
      var n: nat := 0;
      Begin(cut);
      while n < |tokens| && tokens[n].kind != End
        invariant 0 <= n <= |cut.items| && cursor <= |source|
        invariant Reading(cut, n, cursor)
        invariant output == Join(LaidOut(cut.items)[..n], "") && StateAt(Kinds(cut.items), n) && SolidEnd(output)
        invariant forall i :: 0 <= i < n ==> StepFits(maxOutputBytes, Join(LaidOut(cut.items)[..i], ""), cut.items, i)
        decreases |tokens| - n
      {
        var fits := FormatNext(cut, n, cursor);
        if !fits {
          return OutputTooLarge(ByteLength(output), maxOutputBytes);
        }
        cursor := tokens[n].end;
        n := n + 1;
      }
      AtLast(cut, n, cursor);
      r := Finish(source[cursor..], cut);
    }

    /** Tokens from `n` on and the text from `cursor` on are the rest of the cut. */
    ghost predicate Reading(cut: Cut, n: nat, cursor: nat) {
      && n <= |cut.items| && cursor <= |source|
      && |tokens| == |cut.items| + 1 && tokens[|cut.items|].kind == End
      && source[cursor..] == Join(cut.items[n..], cut.tail)
      && tokens[n..|cut.items|] == TokensAt(cut.items[n..], cursor)
    }

    lemma Begin(cut: Cut)
      requires source == Join(cut.items, cut.tail)
      requires tokens == TokensAt(cut.items, 0) + [Token(End, |source|, |source|)]
      ensures Reading(cut, 0, 0) && LaidOut(cut.items)[..0] == [] && Join([], "") == ""
    {
      assert cut.items[0..] == cut.items && source[0..] == source && tokens[0..|cut.items|] == TokensAt(cut.items, 0);
    }

    lemma AtLast(cut: Cut, n: nat, cursor: nat)
      requires Reading(cut, n, cursor) && Solid(cut.items) && (n < |tokens| ==> tokens[n].kind == End)
      ensures n == |cut.items| && source[cursor..] == cut.tail && LaidOut(cut.items)[..n] == LaidOut(cut.items)
    {
      if n < |cut.items| {
        assert false;
      }
      assert cut.items[n..] == [];
    }

    method FormatNext(ghost cut: Cut, n: nat, cursor: nat) returns (fits: bool)
      requires n < |tokens| && tokens[n].kind != End && Reading(cut, n, cursor) && Solid(cut.items)
      requires output == Join(LaidOut(cut.items)[..n], "") && StateAt(Kinds(cut.items), n) && SolidEnd(output)
      modifies this
      ensures !fits ==> !WithinLimit()
      ensures n < |cut.items| && (fits <==> StepFits(maxOutputBytes, old(output), cut.items, n))
      ensures fits ==> tokens[n].end <= |source| && Reading(cut, n + 1, tokens[n].end)
      ensures fits ==>
        output == Join(LaidOut(cut.items)[..n + 1], "") && StateAt(Kinds(cut.items), n + 1) && SolidEnd(output)
    {
      hide Laid, Join, TokensAt, Kinds, StateAt, Solid, ByteLength, StepFits;
      NextItem(cut.items, cut.tail, n, cursor, source, tokens);
      var token := tokens[n];
      fits := FormatToken(token.kind, source[cursor..token.start], source[token.start..token.end], cut.items, n);
      ghost var laid := LaidOut(cut.items);
      assert laid[..n + 1] == laid[..n] + [laid[n]];
      JoinAppend(laid[..n], laid[n]);
    }

    /** The text after the last token, the final trim and the final newline. */
    method Finish(gap: string, ghost cut: Cut) returns (r: FormatResult)
      requires gap == cut.tail && StateAt(Kinds(cut.items), |cut.items|) && SolidEnd(output)
      requires output == Join(LaidOut(cut.items), "")
      modifies this
      ensures r.Done? ==> var f := Formatted(cut, appendTerminalNewline); r.text == Join(f.items, f.tail)
      ensures r.Done? <==> EndFits(maxOutputBytes, cut, appendTerminalNewline)
      ensures r.OutputTooLarge? ==> r.maximum == maxOutputBytes < r.actual
    {
      hide GapText, Laid, ByteLength;
      ghost var ks := Kinds(cut.items);
      var _ := WriteRawGap(gap, ks, |ks|);
      if !WithinLimit() {
        return OutputTooLarge(ByteLength(output), maxOutputBytes);
      }
      TrimSolid(old(output), GapText(ks, |ks|, gap));
      TrimFits(output);
      TrimTrailing();
      ghost var tail := LaidTail(cut.items, cut.tail);
      JoinTail(LaidOut(cut.items), tail);
      if appendTerminalNewline && output != "" && output[|output| - 1] != '\n' {
        output := output + "\n";
        JoinAppend(LaidOut(cut.items), Item(tail, Newline, "\n"));
        if !WithinLimit() {
          return OutputTooLarge(ByteLength(output), maxOutputBytes);
        }
      }
      r := Done(output);
    }
  }

  /** The spacing in front of a token other than a line break. */
  function Spacing(ks: seq<Kind>, n: nat, preserved: bool): (s: string)
    requires n < |ks|
  {
    if preserved then ""
    else if LineStart(ks, n) then Indent(TokenLevel(ks, n))
    else if Spaced(ks, n) then " "
    else ""
  }

  lemma {:induction false} GapParts(ks: seq<Kind>, n: nat, gap: string)
    requires n < |ks|
    ensures ks[n] == Newline ==> NewGap(ks, n, gap) == TrimEnd(GapText(ks, n, gap))
    ensures ks[n] != Newline ==> NewGap(ks, n, gap) == GapText(ks, n, gap) + Spacing(ks, n, !AllBlank(gap))
  {
  }

  /** One step of the layout state. */
  lemma {:induction false} StateStep(ks: seq<Kind>, n: nat)
    requires n < |ks|
    ensures LambdaOpen(ks, n + 1) == if IsOperator(ks[n], "|") then !LambdaOpen(ks, n) else LambdaOpen(ks, n)
    ensures Indentation(ks, n + 1) == if ks[n] == OpenCurly then TokenLevel(ks, n) + 1 else TokenLevel(ks, n)
  {
  }

  /** What the loop reads at token `n` is item `n` of the cut. */
  lemma {:induction false} NextItem(items: seq<Item>, tail: string, n: nat, cursor: nat, source: string,
      tokens: seq<Token>)
    requires n <= |items| < |tokens| && cursor <= |source| && tokens[n].kind != End
    requires tokens[|items|].kind == End
    requires source[cursor..] == Join(items[n..], tail) && tokens[n..|items|] == TokensAt(items[n..], cursor)
    requires Solid(items)
    ensures n < |items|
    ensures var t := tokens[n];
            && cursor <= t.start <= t.end <= |source|
            && items[n] == Item(source[cursor..t.start], t.kind, source[t.start..t.end]) && SolidText(items[n].text)
            && source[t.end..] == Join(items[n + 1..], tail)
            && tokens[n + 1..|items|] == TokensAt(items[n + 1..], t.end)
  {
    hide SolidText;
    var item := items[n];
    var rest := items[n..];
    assert rest[0] == item && rest[1..] == items[n + 1..];
    assert tokens[n..|items|][0] == tokens[n];
    assert tokens[n..|items|][1..] == tokens[n + 1..|items|];
    var after := Join(items[n + 1..], tail);
    SliceJoin(item.gap, item.text, after);
    assert source[cursor..] == item.gap + item.text + after;
    var i, j := |item.gap|, |item.gap| + |item.text|;
    assert source[cursor..][..i] == source[cursor..cursor + i];
    assert source[cursor..][i..j] == source[cursor + i..cursor + j];
    assert source[cursor..][j..] == source[cursor + j..];
  }

  /** Dropping characters from the end never grows the byte length. */
  lemma {:induction false} TrimFits(s: string)
    ensures ByteLength(TrimEnd(s)) <= ByteLength(s)
  {
    if s != "" && IsBlank(s[|s| - 1]) {
      TrimFits(s[..|s| - 1]);
    }
  }

  /** Trimming a solid text extended by a fragment trims the fragment only. */
  lemma {:induction false} TrimSolid(before: string, written: string)
    requires SolidEnd(before)
    ensures TrimEnd(before + written) == before + TrimEnd(written)
    decreases |written|
  {
    var s := before + written;
    if written == "" {
      assert s == before;
    } else if IsBlank(written[|written| - 1]) {
      assert s[..|s| - 1] == before + written[..|written| - 1];
      TrimSolid(before, written[..|written| - 1]);
    }
  }
}
