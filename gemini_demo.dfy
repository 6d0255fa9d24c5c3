/** demo/gemini_demo.py: the prompt builders and the validator that turns the
    model's recipe text into structured recipes. */
module GeminiDemo {
  import opened Wrappers
  import opened Strings

  // ------------------------------------------------------------ the prompt

  const IngredientsPrefix: string := "INGREDIENTS = ["

  predicate IsQuote(c: char) {
    c == '"'
  }

  function Quote(item: string): string {
    "\"" + item + "\""
  }

  function QuoteAll(items: seq<string>): (r: seq<string>)
    ensures |r| == |items|
  {
    if items == [] then [] else [Quote(items[0])] + QuoteAll(items[1..])
  }

  /** `format_ingredients_for_prompt`: each item in double quotes, joined by
      ", ", inside `INGREDIENTS = [` and `]`. */
  function FormatIngredients(items: seq<string>): string {
    IngredientsPrefix + Join(QuoteAll(items), ", ") + "]"
  }

  /** `build_prompt_contents`: the stripped prompt, a blank line, then the
      ingredient list. */
  function BuildPromptContents(promptText: string, items: seq<string>): string {
    Strip(promptText) + "\n\n" + FormatIngredients(items)
  }

  /** Reads a list of quoted items separated by ", ". */
  function ParseQuoted(s: string): Option<seq<string>>
    decreases |s|
  {
    if s == [] || s[0] != '"' then None
    else
      var k := FirstWhere(s[1..], IsQuote);
      if k == |s| - 1 then None
      else
        var item := s[1..k + 1];
        var rest := s[k + 2..];
        if rest == [] then Some([item])
        else if |rest| >= 2 && rest[..2] == ", " then
          match ParseQuoted(rest[2..]) {
            case None => None
            case Some(more) => Some([item] + more)
          }
        else None
  }

  /** Reads back a line written by `FormatIngredients`. */
  function ParseIngredients(s: string): Option<seq<string>> {
    var n := |IngredientsPrefix|;
    if |s| < n + 1 || s[..n] != IngredientsPrefix || s[|s| - 1] != ']' then None
    else if |s| == n + 1 then Some([])
    else ParseQuoted(s[n..|s| - 1])
  }

  predicate NoQuotes(items: seq<string>) {
    forall i :: 0 <= i < |items| ==> NoneIn(items[i], IsQuote)
  }

  /** Where the first quoted item of `Quote(x) + tail` ends. */
  lemma QuotedHead(x: string, tail: string)
    requires NoneIn(x, IsQuote)
    ensures var s := Quote(x) + tail;
      && s != [] && s[0] == '"'
      && FirstWhere(s[1..], IsQuote) == |x|
      && s[1..|x| + 1] == x
      && s[|x| + 2..] == tail
  {
    var s := Quote(x) + tail;
    assert s[1..] == x + ['"'] + tail;
    FirstWhereIs(s[1..], IsQuote, |x|);
  }

  lemma ParseQuotedOne(x: string)
    requires NoneIn(x, IsQuote)
    ensures ParseQuoted(Quote(x)) == Some([x])
  {
    QuotedHead(x, "");
    assert Quote(x) + "" == Quote(x);
  }

  lemma ParseQuotedCons(x: string, more: string, items: seq<string>)
    requires NoneIn(x, IsQuote) && ParseQuoted(more) == Some(items)
    ensures ParseQuoted(Quote(x) + ", " + more) == Some([x] + items)
  {
    var tail := ", " + more;
    QuotedHead(x, tail);
    assert Quote(x) + ", " + more == Quote(x) + tail;
    assert tail[..2] == ", " && tail[2..] == more;
  }

  /** The quoted list of several items is the first one, ", ", and the rest. */
  lemma QuotedJoinCons(items: seq<string>)
    requires |items| > 1
    ensures Join(QuoteAll(items), ", ") == Quote(items[0]) + ", " + Join(QuoteAll(items[1..]), ", ")
  {
    assert QuoteAll(items)[1..] == QuoteAll(items[1..]);
  }

  /** The quoted list of one item is that item in quotes. */
  lemma QuotedJoinOne(items: seq<string>)
    requires |items| == 1
    ensures Join(QuoteAll(items), ", ") == Quote(items[0])
  {
    assert QuoteAll(items) == [Quote(items[0])];
  }

  lemma {:induction false} ParseQuotedJoin(items: seq<string>)
    requires |items| >= 1 && NoQuotes(items)
    ensures ParseQuoted(Join(QuoteAll(items), ", ")) == Some(items)
  {
    var x := items[0];
    assert NoneIn(x, IsQuote);
    if |items| > 1 {
      var rest := items[1..];
      QuotedJoinCons(items);
      ParseQuotedJoin(rest);
      ParseQuotedCons(x, Join(QuoteAll(rest), ", "), rest);
      assert [x] + rest == items;
    } else {
      QuotedJoinOne(items);
      ParseQuotedOne(x);
      assert [x] == items;
    }
  }

  /** The ingredient list can be read back from the prompt line, as long as no
      item contains a double quote. */
  lemma FormatIngredientsRoundTrip(items: seq<string>)
    requires NoQuotes(items)
    ensures ParseIngredients(FormatIngredients(items)) == Some(items)
  {
    var s := FormatIngredients(items);
    var n := |IngredientsPrefix|;
    var body := Join(QuoteAll(items), ", ");
    assert s[..n] == IngredientsPrefix;
    assert s[n..|s| - 1] == body;
    if items != [] {
      ParseQuotedJoin(items);
    }
  }

  /** The prompt contents are the stripped prompt, a blank line, and a line
      from which the ingredients can be read back. */
  lemma PromptContentsParts(promptText: string, items: seq<string>)
    requires NoQuotes(items)
    ensures var r := BuildPromptContents(promptText, items); var n := |Strip(promptText)|;
      && r[..n] == Strip(promptText)
      && r[n..n + 2] == "\n\n"
      && ParseIngredients(r[n + 2..]) == Some(items)
  {
    var r := BuildPromptContents(promptText, items);
    var n := |Strip(promptText)|;
    assert r[n + 2..] == FormatIngredients(items);
    FormatIngredientsRoundTrip(items);
  }

  /** Whitespace around the prompt file's text never reaches the model. */
  lemma PromptIgnoresSurroundingSpace(promptText: string, items: seq<string>)
    ensures BuildPromptContents(Strip(promptText), items) == BuildPromptContents(promptText, items)
  {
    TrimIdempotent(promptText, IsPySpace);
  }

  // ------------------------------------------------------------ recipes

  /** One validated recipe. */
  datatype Recipe = Recipe(title: string, servings: nat, timeMinutes: nat,
                           ingredients: seq<string>, instructions: seq<string>)

  /** A recipe with at least one ingredient and one instruction. */
  predicate Complete(r: Recipe) {
    r.ingredients != [] && r.instructions != []
  }

  predicate AllComplete(rs: seq<Recipe>) {
    rs == [] || (Complete(rs[0]) && AllComplete(rs[1..]))
  }

  /** The `ValueError`s `validate_recipe_output` raises. */
  datatype RecipeError =
    | EmptyOutput
    | NoBlocks
    | WrongCount(found: nat)
    | MissingLines
    | BadServings
    | BadTime
    | NoIngredientsHeading
    | NoIngredients
    | NoInstructionsHeading
    | NoInstructions
    | ExtraContent

  function Message(e: RecipeError): string {
    match e
    case EmptyOutput => "Recipe output is empty."
    case NoBlocks => "No recipe blocks were found in the output"
    case WrongCount(n) => "Expected between 2 and 4 recipes, found " + NatToString(n) + "."
    case MissingLines => "Recipe block is missing required lines"
    case BadServings => "Servings line is malformed or missing"
    case BadTime => "Time line is malformed or missing"
    case NoIngredientsHeading => "Ingredients section heading is missing"
    case NoIngredients => "At least one ingredient line is required"
    case NoInstructionsHeading => "Instructions section heading is missing"
    case NoInstructions => "At least one numbered instruction is required"
    case ExtraContent => "Unexpected extra content found after instructions"
  }

  /** The errors a single block can raise. */
  predicate IsBlockError(e: RecipeError) {
    !(e.EmptyOutput? || e.NoBlocks? || e.WrongCount?)
  }

  /** The count message names the count. */
  lemma WrongCountMessageInjective(a: nat, b: nat)
    requires Message(WrongCount(a)) == Message(WrongCount(b))
    ensures a == b
  {
    var prefix := "Expected between 2 and 4 recipes, found ";
    var ma := Message(WrongCount(a));
    var mb := Message(WrongCount(b));
    assert |NatToString(a)| == |NatToString(b)|;
    assert NatToString(a) == ma[|prefix|..|ma| - 1];
    assert NatToString(b) == mb[|prefix|..|mb| - 1];
    NatToStringInjective(a, b);
  }

  // ------------------------------------------------------------ splitting into blocks

  const ServingsTag: string := "Servings:"

  /** The end of the run of newlines that starts at `p`. */
  function RunEnd(s: string, p: nat): (e: nat)
    requires p <= |s|
    ensures p <= e <= |s| && (e < |s| ==> s[e] != '\n')
    ensures forall k :: p <= k < e ==> s[k] == '\n'
    decreases |s| - p
  {
    if p < |s| && s[p] == '\n' then RunEnd(s, p + 1) else p
  }

  /** The lookahead `(?=[^\n]+\nServings:)` at the start of `t`: a non-empty
      line followed by a line that starts with "Servings:". */
  predicate FollowedByServings(t: string) {
    var j := FirstWhere(t, IsNewline);
    0 < j && j + 1 + |ServingsTag| <= |t| && t[j + 1..j + 1 + |ServingsTag|] == ServingsTag
  }

  /** The separator `\n{2,}(?=[^\n]+\nServings:)` matches at `p`. Only the
      whole run of newlines can be followed by a non-newline, so the match is
      that run. */
  predicate MatchAt(s: string, p: nat)
    requires p <= |s|
  {
    var e := RunEnd(s, p);
    e >= p + 2 && FollowedByServings(s[e..])
  }

  /** The leftmost match at or after `p`, or `|s|`. */
  function NextMatch(s: string, p: nat): (q: nat)
    requires p <= |s|
    ensures p <= q <= |s|
    ensures q < |s| ==> MatchAt(s, q)
    ensures forall k :: p <= k < q ==> !MatchAt(s, k)
    decreases |s| - p
  {
    if p == |s| then |s| else if MatchAt(s, p) then p else NextMatch(s, p + 1)
  }

  lemma NextMatchIs(s: string, p: nat, q: nat)
    requires p <= q <= |s|
    requires q < |s| ==> MatchAt(s, q)
    requires forall k :: p <= k < q ==> !MatchAt(s, k)
    ensures NextMatch(s, p) == q
  {
  }

  /** `re.split(r"\n{2,}(?=[^\n]+\nServings:)", s)`. */
  function SplitRecipes(s: string): (r: seq<string>)
    ensures |r| >= 1
    decreases |s|
  {
    var q := NextMatch(s, 0);
    if q == |s| then [s] else [s[..q]] + SplitRecipes(s[RunEnd(s, q)..])
  }

  /** `[x.strip() for x in parts if x.strip()]`. */
  function StripNonBlank(parts: seq<string>): (r: seq<string>)
    ensures |r| <= |parts|
    ensures forall i :: 0 <= i < |r| ==> r[i] != [] && Clean(r[i], IsPySpace)
  {
    if parts == [] then []
    else
      var t := Strip(parts[0]);
      (if t == [] then [] else [t]) + StripNonBlank(parts[1..])
  }

  /** The recipe blocks of the model's output. */
  function Blocks(text: string): seq<string> {
    StripNonBlank(SplitRecipes(Strip(text)))
  }

  /** The non-blank lines of a block, stripped. */
  function BlockLines(block: string): seq<string> {
    StripNonBlank(SplitWhere(block, IsLineBreak))
  }

  // ------------------------------------------------------------ line patterns

  predicate NotDigit(c: char) {
    !IsDigit(c)
  }

  /** `re.fullmatch(r"Servings:\s*(\d+)", line)` and the number it captures. */
  function ServingsOf(line: string): Option<nat> {
    var n := |ServingsTag|;
    if |line| < n || line[..n] != ServingsTag then None
    else
      var digits := TrimStart(line[n..], IsPySpace);
      if digits != [] && AllDigits(digits) then Some(DigitsValue(digits)) else None
  }

  /** `re.fullmatch(r"Time:\s*(\d+)\s+minutes", line)` and the number it captures. */
  function TimeOf(line: string): Option<nat> {
    if |line| < 5 || line[..5] != "Time:" then None
    else
      var rest := TrimStart(line[5..], IsPySpace);
      var d := DigitRun(rest);
      var after := rest[d..];
      if d > 0 && after != [] && IsPySpace(after[0]) && TrimStart(after, IsPySpace) == "minutes" then
        assert forall i :: 0 <= i < d ==> rest[..d][i] == rest[i];
        Some(DigitsValue(rest[..d]))
      else None
  }

  /** `\s+(.+)` at the start of `rest`, and the group, stripped. The `\s+`
      takes every space it can while leaving `.+` one character that is not
      a newline. */
  function StepText(rest: string): Option<string> {
    if rest == [] || !IsPySpace(rest[0]) then None
    else
      var text := TrimStart(rest, IsPySpace);
      if text == [] then
        if AllIn(rest[1..], IsNewline) then None else Some("")
      else Some(Strip(text[..FirstWhere(text, IsNewline)]))
  }

  /** `re.match(r"(\d+)\.\s+(.+)", line)` and its second group, stripped. */
  function InstructionOf(line: string): Option<string> {
    var d := DigitRun(line);
    if d == 0 || d == |line| || line[d] != '.' then None else StepText(line[d + 1..])
  }

  /** `line.startswith("- ")`. */
  predicate IsIngredientLine(line: string) {
    |line| >= 2 && line[..2] == "- "
  }

  /** The items `item` reads from line `i` on, up to the first line it does
      not read. */
  function ItemsFrom(lines: seq<string>, i: nat, item: string -> Option<string>): (r: seq<string>)
    requires i <= |lines|
    ensures i + |r| <= |lines|
    decreases |lines| - i
  {
    if i < |lines| && item(lines[i]).Some?
    then [item(lines[i]).value] + ItemsFrom(lines, i + 1, item)
    else []
  }

  /** An ingredient line without its "- " prefix, stripped. */
  function IngredientOf(line: string): Option<string> {
    if IsIngredientLine(line) then Some(Strip(line[2..])) else None
  }

  /** The ingredients listed from line `i` on, up to the first line that is not
      one. */
  function IngredientsFrom(lines: seq<string>, i: nat): (r: seq<string>)
    requires i <= |lines|
    ensures i + |r| <= |lines|
    decreases |lines| - i
  {
    if i < |lines| && IsIngredientLine(lines[i])
    then [Strip(lines[i][2..])] + IngredientsFrom(lines, i + 1)
    else []
  }

  /** The numbered instructions from line `i` on, up to the first line that is
      not one. */
  function InstructionsFrom(lines: seq<string>, i: nat): (r: seq<string>)
    requires i <= |lines|
    ensures i + |r| <= |lines|
    decreases |lines| - i
  {
    if i < |lines| && InstructionOf(lines[i]).Some?
    then [InstructionOf(lines[i]).value] + InstructionsFrom(lines, i + 1)
    else []
  }

  lemma {:induction false} IngredientsAreItems(lines: seq<string>, i: nat)
    requires i <= |lines|
    ensures IngredientsFrom(lines, i) == ItemsFrom(lines, i, IngredientOf)
    decreases |lines| - i
  {
    if i < |lines| {
      IngredientsAreItems(lines, i + 1);
    }
  }

  lemma {:induction false} InstructionsAreItems(lines: seq<string>, i: nat)
    requires i <= |lines|
    ensures InstructionsFrom(lines, i) == ItemsFrom(lines, i, InstructionOf)
    decreases |lines| - i
  {
    if i < |lines| {
      InstructionsAreItems(lines, i + 1);
    }
  }

  // ------------------------------------------------------------ the validator

  /** The checks `validate_recipe_output` makes on the lines of one block, in
      its order. */
  function ParseLines(lines: seq<string>): (r: Result<Recipe, RecipeError>)
    ensures r.Failure? ==> IsBlockError(r.error)
    ensures r.Success? ==> Complete(r.value)
    ensures r.Success? ==> |lines| == 5 + |r.value.ingredients| + |r.value.instructions|
  {
    if |lines| < 6 then Failure(MissingLines)
    else
      var servings := ServingsOf(lines[1]);
      var time := TimeOf(lines[2]);
      if servings.None? then Failure(BadServings)
      else if time.None? then Failure(BadTime)
      else if lines[3] != "Ingredients:" then Failure(NoIngredientsHeading)
      else
        var ingredients := IngredientsFrom(lines, 4);
        var k := 4 + |ingredients|;
        if ingredients == [] then Failure(NoIngredients)
        else if k >= |lines| || lines[k] != "Instructions:" then Failure(NoInstructionsHeading)
        else
          var steps := InstructionsFrom(lines, k + 1);
          if steps == [] then Failure(NoInstructions)
          else if k + 1 + |steps| != |lines| then Failure(ExtraContent)
          else Success(Recipe(lines[0], servings.value, time.value, ingredients, steps))
  }

  function ParseBlock(block: string): Result<Recipe, RecipeError> {
    ParseLines(BlockLines(block))
  }

  /** The blocks parsed in order; the first block that fails decides the error. */
  function ParseAll(blocks: seq<string>): (r: Result<seq<Recipe>, RecipeError>)
    ensures r.Failure? ==> IsBlockError(r.error)
    ensures r.Success? ==> |r.value| == |blocks|
    ensures r.Success? ==> AllComplete(r.value)
  {
    if blocks == [] then Success([])
    else
      var first := ParseBlock(blocks[0]);
      var rest := ParseAll(blocks[1..]);
      if first.Failure? then Failure(first.error)
      else if rest.Failure? then Failure(rest.error)
      else
        var all := [first.value] + rest.value;
        assert all[1..] == rest.value;
        Success(all)
  }

  /** `validate_recipe_output`. */
  function Validate(text: string): (r: Result<seq<Recipe>, RecipeError>)
    ensures r.Success? ==> 2 <= |r.value| <= 4
    ensures r.Success? ==> AllComplete(r.value)
  {
    if Strip(text) == [] then Failure(EmptyOutput)
    else
      var blocks := Blocks(text);
      if blocks == [] then Failure(NoBlocks)
      else if !(2 <= |blocks| <= 4) then Failure(WrongCount(|blocks|))
      else ParseAll(blocks)
  }

  /** `Success(more)` with `done` in front; a failure stays as it is. */
  function Prepend(done: seq<Recipe>, r: Result<seq<Recipe>, RecipeError>): Result<seq<Recipe>, RecipeError> {
    match r
    case Failure(e) => Failure(e)
    case Success(more) => Success(done + more)
  }

  lemma PrependNothing(rest: Result<seq<Recipe>, RecipeError>)
    ensures Prepend([], rest) == rest
  {
    if rest.Success? {
      assert [] + rest.value == rest.value;
    }
  }

  lemma PrependStep(done: seq<Recipe>, next: Recipe, rest: Result<seq<Recipe>, RecipeError>)
    ensures Prepend(done, Prepend([next], rest)) == Prepend(done + [next], rest)
  {
    if rest.Success? {
      assert done + ([next] + rest.value) == (done + [next]) + rest.value;
    }
  }

  /** The first cursor loop of `validate_recipe_output`: collects the "- "
      lines from `start` on, removing the prefix. */
  method CollectIngredients(lines: seq<string>, start: nat) returns (ingredients: seq<string>)
    requires start <= |lines|
    ensures ingredients == IngredientsFrom(lines, start)
  {
    var idx := start;
    ingredients := [];
    while idx < |lines| && IsIngredientLine(lines[idx])
      invariant start <= idx <= |lines|
      invariant ingredients + IngredientsFrom(lines, idx) == IngredientsFrom(lines, start)
      decreases |lines| - idx
    {
      var item := Strip(lines[idx][2..]);
      assert IngredientsFrom(lines, idx) == [item] + IngredientsFrom(lines, idx + 1);
      assert ingredients + ([item] + IngredientsFrom(lines, idx + 1))
          == (ingredients + [item]) + IngredientsFrom(lines, idx + 1);
      ingredients := ingredients + [item];
      idx := idx + 1;
    }
  }

  /** The second cursor loop: collects the numbered instructions from `start`
      on, without their numbers. */
  method CollectInstructions(lines: seq<string>, start: nat) returns (instructions: seq<string>)
    requires start <= |lines|
    ensures instructions == InstructionsFrom(lines, start)
  {
    var idx := start;
    instructions := [];
    while idx < |lines| && InstructionOf(lines[idx]).Some?
      invariant start <= idx <= |lines|
      invariant instructions + InstructionsFrom(lines, idx) == InstructionsFrom(lines, start)
      decreases |lines| - idx
    {
      var step := InstructionOf(lines[idx]).value;
      assert InstructionsFrom(lines, idx) == [step] + InstructionsFrom(lines, idx + 1);
      assert instructions + ([step] + InstructionsFrom(lines, idx + 1))
          == (instructions + [step]) + InstructionsFrom(lines, idx + 1);
      instructions := instructions + [step];
      idx := idx + 1;
    }
  }

  /** The checks `validate_recipe_output` makes on one block's lines, with the
      `idx` cursor moved past the ingredients and then the instructions. */
  method ParseRecipeLines(lines: seq<string>) returns (r: Result<Recipe, RecipeError>)
    ensures r == ParseLines(lines)
  {
    if |lines| < 6 {
      return Failure(MissingLines);
    }
    var servings := ServingsOf(lines[1]);
    if servings.None? {
      return Failure(BadServings);
    }
    var time := TimeOf(lines[2]);
    if time.None? {
      return Failure(BadTime);
    }
    if lines[3] != "Ingredients:" {
      return Failure(NoIngredientsHeading);
    }
    var ingredients := CollectIngredients(lines, 4);
    var idx := 4 + |ingredients|;
    if ingredients == [] {
      return Failure(NoIngredients);
    }
    if idx >= |lines| || lines[idx] != "Instructions:" {
      return Failure(NoInstructionsHeading);
    }
    idx := idx + 1;
    var instructions := CollectInstructions(lines, idx);
    idx := idx + |instructions|;
    if instructions == [] {
      return Failure(NoInstructions);
    }
    if idx != |lines| {
      return Failure(ExtraContent);
    }
    return Success(Recipe(lines[0], servings.value, time.value, ingredients, instructions));
  }

  /** `validate_recipe_output`'s loop over the blocks: the recipes are
      appended in order and the first block that fails ends the loop. */
  method ParseBlocks(blocks: seq<string>) returns (r: Result<seq<Recipe>, RecipeError>)
    ensures r == ParseAll(blocks)
  {
    var parsed: seq<Recipe> := [];
    PrependNothing(ParseAll(blocks));
    assert blocks[0..] == blocks;
    for b := 0 to |blocks|
      invariant ParseAll(blocks) == Prepend(parsed, ParseAll(blocks[b..]))
    {
      var recipe := ParseRecipeLines(BlockLines(blocks[b]));
      ghost var tail := blocks[b..];
      assert tail[0] == blocks[b] && tail[1..] == blocks[b + 1..];
      if recipe.Failure? {
        assert ParseAll(tail) == Failure(recipe.error);
        return Failure(recipe.error);
      }
      assert ParseAll(tail) == Prepend([recipe.value], ParseAll(blocks[b + 1..]));
      PrependStep(parsed, recipe.value, ParseAll(blocks[b + 1..]));
      parsed := parsed + [recipe.value];
    }
    assert blocks[|blocks|..] == [];
    assert parsed + [] == parsed;
    return Success(parsed);
  }

  /** `validate_recipe_output`: the recipes in order, or the first error. */
  method ValidateRecipeOutput(recipeText: string) returns (r: Result<seq<Recipe>, RecipeError>)
    ensures r == Validate(recipeText)
  {
    if Strip(recipeText) == [] {
      return Failure(EmptyOutput);
    }
    var blocks := Blocks(recipeText);
    if |blocks| == 0 {
      return Failure(NoBlocks);
    }
    if !(2 <= |blocks| <= 4) {
      return Failure(WrongCount(|blocks|));
    }
    r := ParseBlocks(blocks);
  }

  // ------------------------------------------------------------ error paths

  /** Output that is empty or only whitespace is rejected as empty, and
      nothing else is. */
  lemma EmptyOutputIff(text: string)
    ensures Validate(text) == Failure(EmptyOutput) <==> AllIn(text, IsPySpace)
  {
    TrimEmptyIff(text, IsPySpace);
  }

  /** The separator starts with a newline, so the first piece of a split
      keeps the first character of a text that does not start with one. */
  lemma SplitKeepsFirst(s: string)
    requires s != [] && s[0] != '\n'
    ensures var first := SplitRecipes(s)[0]; first != [] && first[0] == s[0]
  {
  }

  /** Output with any non-whitespace character yields at least one block, so
      "No recipe blocks were found" is never raised. */
  lemma NoBlocksUnreachable(text: string)
    ensures Validate(text) != Failure(NoBlocks)
  {
    var s := Strip(text);
    if s != [] {
      assert !IsPySpace(s[0]);
      SplitKeepsFirst(s);
      var parts := SplitRecipes(s);
      TrimEmptyIff(parts[0], IsPySpace);
      assert Strip(parts[0]) != [];
      assert Blocks(text) != [];
    }
  }

  /** A count outside 2..4 is reported with the number of blocks found. */
  lemma WrongCountIff(text: string, n: nat)
    ensures Validate(text) == Failure(WrongCount(n)) <==>
      !AllIn(text, IsPySpace) && n == |Blocks(text)| && (n < 2 || n > 4)
  {
    TrimEmptyIff(text, IsPySpace);
    NoBlocksUnreachable(text);
  }

  /** When every block before `i` parses and block `i` does not, the result is
      block `i`'s error: the blocks are checked in order. */
  lemma {:induction false} FirstFailingBlock(blocks: seq<string>, i: nat)
    requires i < |blocks|
    requires forall j :: 0 <= j < i ==> ParseBlock(blocks[j]).Success?
    requires ParseBlock(blocks[i]).Failure?
    ensures ParseAll(blocks) == Failure(ParseBlock(blocks[i]).error)
  {
    if i > 0 {
      assert ParseBlock(blocks[0]).Success?;
      forall j | 0 <= j < i - 1
        ensures ParseBlock(blocks[1..][j]).Success?
      {
        assert blocks[1..][j] == blocks[j + 1];
      }
      FirstFailingBlock(blocks[1..], i - 1);
    }
  }

  /** When every block parses, the result lists the recipes in block order. */
  lemma {:induction false} AllBlocksParse(blocks: seq<string>, rs: seq<Recipe>)
    requires |rs| == |blocks|
    requires forall j :: 0 <= j < |blocks| ==> ParseBlock(blocks[j]) == Success(rs[j])
    ensures ParseAll(blocks) == Success(rs)
  {
    if blocks != [] {
      forall j | 0 <= j < |blocks| - 1
        ensures ParseBlock(blocks[1..][j]) == Success(rs[1..][j])
      {
        assert blocks[1..][j] == blocks[j + 1];
      }
      AllBlocksParse(blocks[1..], rs[1..]);
      assert [rs[0]] + rs[1..] == rs;
    }
  }

  // ------------------------------------------------------------ the accepted format

  /** A line of recipe text: non-empty, without surrounding whitespace and
      without a line break. */
  predicate IsTextLine(s: string) {
    s != [] && Clean(s, IsPySpace) && NoneIn(s, IsLineBreak)
  }

  /** A recipe the validator can return for some text. */
  predicate WellFormed(r: Recipe) {
    && IsTextLine(r.title) && Complete(r)
    && (forall i :: 0 <= i < |r.ingredients| ==> IsTextLine(r.ingredients[i]))
    && (forall i :: 0 <= i < |r.instructions| ==> IsTextLine(r.instructions[i]))
  }

  function ServingsLine(n: nat): string {
    ServingsTag + " " + NatToString(n)
  }

  function TimeLine(n: nat): string {
    "Time: " + NatToString(n) + " minutes"
  }

  function IngredientLine(item: string): string {
    "- " + item
  }

  function InstructionLine(k: nat, step: string): string {
    NatToString(k) + ". " + step
  }

  function IngredientLines(items: seq<string>): (r: seq<string>)
    ensures |r| == |items|
    ensures forall i :: 0 <= i < |items| ==> r[i] == IngredientLine(items[i])
  {
    seq(|items|, i requires 0 <= i < |items| => IngredientLine(items[i]))
  }

  function InstructionLines(steps: seq<string>): (r: seq<string>)
    ensures |r| == |steps|
    ensures forall i :: 0 <= i < |steps| ==> r[i] == InstructionLine(i + 1, steps[i])
  {
    seq(|steps|, i requires 0 <= i < |steps| => InstructionLine(i + 1, steps[i]))
  }

  /** A recipe in the layout the validator reads, one line per item. */
  function RecipeLines(r: Recipe): seq<string> {
    [r.title, ServingsLine(r.servings), TimeLine(r.timeMinutes), "Ingredients:"]
      + IngredientLines(r.ingredients) + ["Instructions:"] + InstructionLines(r.instructions)
  }

  function RenderRecipe(r: Recipe): string {
    Join(RecipeLines(r), "\n")
  }

  function RenderAll(rs: seq<Recipe>): seq<string> {
    seq(|rs|, i requires 0 <= i < |rs| => RenderRecipe(rs[i]))
  }

  /** Recipes written one after the other, separated by a blank line. */
  function RenderRecipes(rs: seq<Recipe>): string {
    Join(RenderAll(rs), "\n\n")
  }

  lemma DigitsAreNotSpace(d: string)
    requires AllDigits(d)
    ensures NoneIn(d, IsPySpace) && NoneIn(d, IsLineBreak)
  {
  }

  lemma ServingsLineParses(n: nat)
    ensures ServingsOf(ServingsLine(n)) == Some(n)
  {
    var d := NatToString(n);
    var line := ServingsLine(n);
    assert line[..|ServingsTag|] == ServingsTag;
    assert line[|ServingsTag|..] == " " + d;
    DigitsAreNotSpace(d);
    TrimStartAt(" " + d, 1, IsPySpace);
    assert (" " + d)[1..] == d;
  }

  lemma TimeLineParses(n: nat)
    ensures TimeOf(TimeLine(n)) == Some(n)
  {
    var d := NatToString(n);
    var line := TimeLine(n);
    assert line[..5] == "Time:";
    assert line[5..] == " " + (d + " minutes");
    DigitsAreNotSpace(d);
    TrimStartAt(" " + (d + " minutes"), 1, IsPySpace);
    var rest := d + " minutes";
    assert (" " + rest)[1..] == rest;
    DigitRunIs(rest, |d|);
    assert rest[|d|..] == " minutes";
    TrimStartAt(" minutes", 1, IsPySpace);
    assert rest[..|d|] == d;
  }

  lemma InstructionLineParses(k: nat, step: string)
    requires IsTextLine(step)
    ensures InstructionOf(InstructionLine(k, step)) == Some(step)
  {
    var d := NatToString(k);
    var line := InstructionLine(k, step);
    assert line == d + (". " + step);
    assert forall i :: 0 <= i < |d| ==> line[i] == d[i];
    assert line[|d|] == '.';
    DigitRunIs(line, |d|);
    assert line[|d| + 1..] == " " + step;
    StepTextParses(step);
  }

  lemma StepTextParses(step: string)
    requires IsTextLine(step)
    ensures StepText(" " + step) == Some(step)
  {
    var rest := " " + step;
    assert !IsPySpace(step[0]);
    TrimStartAt(rest, 1, IsPySpace);
    assert rest[1..] == step;
    assert forall i :: 0 <= i < |step| ==> !IsNewline(step[i]);
    FirstWhereIs(step, IsNewline, |step|);
    assert step[..|step|] == step;
    TrimClean(step, IsPySpace);
  }

  lemma IngredientLineParses(item: string)
    requires IsTextLine(item)
    ensures IsIngredientLine(IngredientLine(item))
    ensures Strip(IngredientLine(item)[2..]) == item
  {
    assert IngredientLine(item)[2..] == item;
    TrimClean(item, IsPySpace);
  }

  lemma ServingsLineIsText(n: nat)
    ensures IsTextLine(ServingsLine(n))
  {
    var d := NatToString(n);
    DigitsAreNotSpace(d);
    NoneInConcat(ServingsTag + " ", d, IsLineBreak);
    assert ServingsLine(n)[|ServingsLine(n)| - 1] == d[|d| - 1];
  }

  lemma TimeLineIsText(n: nat)
    ensures IsTextLine(TimeLine(n))
  {
    var d := NatToString(n);
    DigitsAreNotSpace(d);
    NoneInConcat("Time: ", d, IsLineBreak);
    NoneInConcat("Time: " + d, " minutes", IsLineBreak);
  }

  lemma IngredientLineIsText(item: string)
    requires IsTextLine(item)
    ensures IsTextLine(IngredientLine(item))
  {
    NoneInConcat("- ", item, IsLineBreak);
    assert IngredientLine(item)[|IngredientLine(item)| - 1] == item[|item| - 1];
  }

  lemma InstructionLineIsText(k: nat, step: string)
    requires IsTextLine(step)
    ensures IsTextLine(InstructionLine(k, step))
  {
    var d := NatToString(k);
    DigitsAreNotSpace(d);
    NoneInConcat(d, ". ", IsLineBreak);
    NoneInConcat(d + ". ", step, IsLineBreak);
    var line := InstructionLine(k, step);
    assert line[0] == d[0];
    assert line[|line| - 1] == step[|step| - 1];
  }

  /** Where each part of a recipe sits among its lines. */
  lemma RecipeLinesAt(r: Recipe)
    ensures var lines := RecipeLines(r); var n := |r.ingredients|;
      && |lines| == 5 + n + |r.instructions|
      && lines[0] == r.title && lines[1] == ServingsLine(r.servings)
      && lines[2] == TimeLine(r.timeMinutes) && lines[3] == "Ingredients:"
      && (forall j :: 0 <= j < n ==> lines[4 + j] == IngredientLine(r.ingredients[j]))
      && lines[4 + n] == "Instructions:"
      && (forall j :: 0 <= j < |r.instructions| ==>
            lines[5 + n + j] == InstructionLine(j + 1, r.instructions[j]))
  {
    var head := [r.title, ServingsLine(r.servings), TimeLine(r.timeMinutes), "Ingredients:"];
    LinesAround(head, IngredientLines(r.ingredients), "Instructions:", InstructionLines(r.instructions));
  }

  /** Positions in `head + a + [mid] + b`. */
  lemma LinesAround(head: seq<string>, a: seq<string>, mid: string, b: seq<string>)
    ensures var lines := head + a + [mid] + b;
      && |lines| == |head| + |a| + 1 + |b|
      && (forall j :: 0 <= j < |head| ==> lines[j] == head[j])
      && (forall j :: 0 <= j < |a| ==> lines[|head| + j] == a[j])
      && lines[|head| + |a|] == mid
      && (forall j :: 0 <= j < |b| ==> lines[|head| + |a| + 1 + j] == b[j])
  {
  }

  lemma RecipeLinesAreText(r: Recipe)
    requires WellFormed(r)
    ensures forall j :: 0 <= j < |RecipeLines(r)| ==> IsTextLine(RecipeLines(r)[j])
  {
    var lines := RecipeLines(r);
    var n := |r.ingredients|;
    RecipeLinesAt(r);
    ServingsLineIsText(r.servings);
    TimeLineIsText(r.timeMinutes);
    forall j | 0 <= j < |lines|
      ensures IsTextLine(lines[j])
    {
      if 4 <= j < 4 + n {
        IngredientLineIsText(r.ingredients[j - 4]);
      } else if 5 + n <= j {
        InstructionLineIsText(j - 4 - n, r.instructions[j - 5 - n]);
      }
    }
  }

  /** Stripping and dropping blank pieces changes nothing when every piece is
      already a clean, non-blank line. */
  lemma {:induction false} StripNonBlankKeeps(parts: seq<string>)
    requires forall j :: 0 <= j < |parts| ==> parts[j] != [] && Clean(parts[j], IsPySpace)
    ensures StripNonBlank(parts) == parts
  {
    if parts != [] {
      TrimClean(parts[0], IsPySpace);
      StripNonBlankKeeps(parts[1..]);
      assert [parts[0]] + parts[1..] == parts;
    }
  }

  /** Splitting a rendered recipe into lines gives back its lines. */
  lemma BlockLinesOfRender(r: Recipe)
    requires WellFormed(r)
    ensures BlockLines(RenderRecipe(r)) == RecipeLines(r)
  {
    var lines := RecipeLines(r);
    RecipeLinesAreText(r);
    SplitJoin(lines, '\n', IsLineBreak);
    StripNonBlankKeeps(lines);
  }

  /** When `item` reads `items` from the lines at `i` on and nothing from the
      line after them, the run from `i + k` is the rest of `items`. */
  lemma {:induction false} ItemsFromAt(lines: seq<string>, i: nat, items: seq<string>,
                                       item: string -> Option<string>, k: nat)
    requires k <= |items| && i + |items| <= |lines|
    requires forall j :: 0 <= j < |items| ==> item(lines[i + j]) == Some(items[j])
    requires i + |items| == |lines| || item(lines[i + |items|]).None?
    ensures ItemsFrom(lines, i + k, item) == items[k..]
    decreases |items| - k
  {
    if k < |items| {
      ItemsFromAt(lines, i, items, item, k + 1);
      assert item(lines[i + k]) == Some(items[k]);
      SuffixCons(items, k);
    }
  }

  lemma HeadingIsNoIngredient()
    ensures IngredientOf("Instructions:") == None
  {
    assert "Instructions:"[..2][0] == 'I';
  }

  lemma RenderedIngredients(r: Recipe)
    requires WellFormed(r)
    ensures IngredientsFrom(RecipeLines(r), 4) == r.ingredients
  {
    var lines := RecipeLines(r);
    var n := |r.ingredients|;
    RecipeLinesAt(r);
    forall j | 0 <= j < n
      ensures IngredientOf(lines[4 + j]) == Some(r.ingredients[j])
    {
      IngredientLineParses(r.ingredients[j]);
    }
    HeadingIsNoIngredient();
    ItemsFromAt(lines, 4, r.ingredients, IngredientOf, 0);
    IngredientsAreItems(lines, 4);
    assert r.ingredients[0..] == r.ingredients;
  }

  lemma RenderedInstructions(r: Recipe)
    requires WellFormed(r)
    ensures 5 + |r.ingredients| <= |RecipeLines(r)|
    ensures InstructionsFrom(RecipeLines(r), 5 + |r.ingredients|) == r.instructions
  {
    var lines := RecipeLines(r);
    var n := |r.ingredients|;
    RecipeLinesAt(r);
    forall j | 0 <= j < |r.instructions|
      ensures InstructionOf(lines[5 + n + j]) == Some(r.instructions[j])
    {
      InstructionLineParses(j + 1, r.instructions[j]);
    }
    ItemsFromAt(lines, 5 + n, r.instructions, InstructionOf, 0);
    InstructionsAreItems(lines, 5 + n);
    assert r.instructions[0..] == r.instructions;
  }

  /** The lines of a rendered recipe pass every check and give the recipe back. */
  lemma ParseLinesOfRender(r: Recipe)
    requires WellFormed(r)
    ensures ParseLines(RecipeLines(r)) == Success(r)
  {
    RecipeLinesAt(r);
    ServingsLineParses(r.servings);
    TimeLineParses(r.timeMinutes);
    RenderedIngredients(r);
    RenderedInstructions(r);
  }

  // ------------------------------------------------------------ rendered text splits back

  /** No two newlines in a row: the text has no blank line. */
  predicate NoBlankLine(s: string) {
    forall k :: 0 <= k < |s| - 1 && s[k] == '\n' ==> s[k + 1] != '\n'
  }

  /** A block the splitter keeps whole and cuts cleanly in front of: clean, no
      blank line, and a first line followed by a "Servings:" line. */
  predicate BlockShape(b: string) {
    b != [] && Clean(b, IsPySpace) && NoBlankLine(b) && FollowedByServings(b)
  }

  /** Text without a blank line holds no separator. */
  lemma SplitSingle(b: string)
    requires NoBlankLine(b) && (b == [] || b[|b| - 1] != '\n')
    ensures SplitRecipes(b) == [b]
  {
    forall k | 0 <= k < |b|
      ensures !MatchAt(b, k)
    {
      if b[k] == '\n' {
        assert k + 1 < |b| && b[k + 1] != '\n';
        assert RunEnd(b, k + 1) == k + 1;
      }
    }
    NextMatchIs(b, 0, |b|);
  }

  /** The lookahead only reads the first two lines. */
  lemma FollowedByServingsExtend(b: string, x: string)
    requires FollowedByServings(b)
    ensures FollowedByServings(b + x)
  {
    var j := FirstWhere(b, IsNewline);
    var t := b + x;
    assert forall i :: 0 <= i < j ==> t[i] == b[i];
    FirstWhereIs(t, IsNewline, j);
    assert t[j + 1..j + 1 + |ServingsTag|] == b[j + 1..j + 1 + |ServingsTag|];
  }

  /** The separator is found right after a block without a blank line. */
  lemma SplitAtSeparator(b: string, t: string)
    requires b != [] && b[|b| - 1] != '\n' && NoBlankLine(b)
    requires FollowedByServings(t)
    ensures SplitRecipes(b + "\n\n" + t) == [b] + SplitRecipes(t)
  {
    var s := b + "\n\n" + t;
    var n := |b|;
    forall k | 0 <= k < n
      ensures !MatchAt(s, k)
    {
      if s[k] == '\n' {
        assert k + 1 < n && b[k + 1] != '\n' && s[k + 1] == b[k + 1];
        assert RunEnd(s, k + 1) == k + 1;
      }
    }
    assert t[0] != '\n';
    assert s[n + 2] == t[0];
    assert RunEnd(s, n + 2) == n + 2;
    assert s[n + 2..] == t;
    assert MatchAt(s, n);
    NextMatchIs(s, 0, n);
    assert s[..n] == b;
  }

  /** The first block of several comes off at the first blank line. */
  lemma SplitFirstBlock(bs: seq<string>)
    requires |bs| >= 2 && BlockShape(bs[0]) && BlockShape(bs[1])
    ensures SplitRecipes(Join(bs, "\n\n")) == [bs[0]] + SplitRecipes(Join(bs[1..], "\n\n"))
  {
    var t := Join(bs[1..], "\n\n");
    JoinPrefix(bs[1..], "\n\n");
    assert t == bs[1] + t[|bs[1]|..];
    FollowedByServingsExtend(bs[1], t[|bs[1]|..]);
    SplitAtSeparator(bs[0], t);
  }

  /** Blocks of the right shape joined by blank lines split back into the
      same blocks. */
  lemma {:induction false} SplitBlocks(bs: seq<string>)
    requires |bs| >= 1
    requires forall i :: 0 <= i < |bs| ==> BlockShape(bs[i])
    ensures SplitRecipes(Join(bs, "\n\n")) == bs
  {
    if |bs| == 1 {
      SplitSingle(bs[0]);
    } else {
      SplitFirstBlock(bs);
      assert forall i :: 0 <= i < |bs| - 1 ==> bs[1..][i] == bs[i + 1];
      SplitBlocks(bs[1..]);
      assert [bs[0]] + bs[1..] == bs;
    }
  }

  /** Lines without line breaks joined by single newlines leave no blank line. */
  lemma {:induction false} JoinNoBlankLine(parts: seq<string>)
    requires forall i :: 0 <= i < |parts| ==> IsTextLine(parts[i])
    ensures NoBlankLine(Join(parts, "\n"))
  {
    if |parts| > 1 {
      var p := parts[0];
      var t := Join(parts[1..], "\n");
      JoinNoBlankLine(parts[1..]);
      JoinPrefix(parts[1..], "\n");
      var s := p + "\n" + t;
      forall k | 0 <= k < |s| - 1 && s[k] == '\n'
        ensures s[k + 1] != '\n'
      {
        if k < |p| {
          assert s[k] == p[k] && IsLineBreak(p[k]);
        } else if k == |p| {
          assert s[k + 1] == t[0] == parts[1][0];
          assert !IsLineBreak(parts[1][0]);
        } else {
          assert s[k] == t[k - |p| - 1] && s[k + 1] == t[k - |p|];
        }
      }
    }
  }

  /** A rendered recipe starts with its title line and then the "Servings:"
      line. */
  lemma RenderFollowedByServings(r: Recipe)
    requires IsTextLine(r.title)
    ensures FollowedByServings(RenderRecipe(r))
  {
    var lines := RecipeLines(r);
    var s := RenderRecipe(r);
    var t := Join(lines[1..], "\n");
    assert lines[0] == r.title && lines[1..][0] == ServingsLine(r.servings);
    assert s == r.title + "\n" + t;
    JoinPrefix(lines[1..], "\n");
    assert forall i :: 0 <= i < |r.title| ==> s[i] == r.title[i] && !IsNewline(r.title[i]);
    FirstWhereIs(s, IsNewline, |r.title|);
    var n := |r.title| + 1;
    assert s[n..n + |ServingsTag|] == t[..|ServingsTag|] == ServingsLine(r.servings)[..|ServingsTag|];
  }

  /** A rendered recipe has the shape the splitter needs. */
  lemma RenderShape(r: Recipe)
    requires WellFormed(r)
    ensures BlockShape(RenderRecipe(r))
  {
    var lines := RecipeLines(r);
    RecipeLinesAreText(r);
    JoinNoBlankLine(lines);
    JoinClean(lines, "\n", IsPySpace);
    RenderFollowedByServings(r);
  }

  /** Two to four well-formed recipes, written one after the other with a blank
      line between them, pass `validate_recipe_output` and come back as they
      were. */
  lemma RenderValidates(rs: seq<Recipe>)
    requires 2 <= |rs| <= 4
    requires forall i :: 0 <= i < |rs| ==> WellFormed(rs[i])
    ensures Validate(RenderRecipes(rs)) == Success(rs)
  {
    var bs := RenderAll(rs);
    var text := RenderRecipes(rs);
    forall i | 0 <= i < |bs|
      ensures BlockShape(bs[i]) && ParseBlock(bs[i]) == Success(rs[i])
    {
      RenderShape(rs[i]);
      BlockLinesOfRender(rs[i]);
      ParseLinesOfRender(rs[i]);
    }
    JoinClean(bs, "\n\n", IsPySpace);
    TrimClean(text, IsPySpace);
    SplitBlocks(bs);
    StripNonBlankKeeps(bs);
    assert Blocks(text) == bs;
    AllBlocksParse(bs, rs);
  }
}
