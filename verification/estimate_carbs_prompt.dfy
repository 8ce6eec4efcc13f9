/**
 * The `estimate-carbs` prompt: a single user message whose text depends only
 * on the food description, the preferred units and the confidence flag.
 */
module EstimateCarbsPrompt {
  import opened Wrappers
  import opened Js

  datatype Units = Grams | Exchanges | Both

  datatype PromptMessage = PromptMessage(role: string, contentType: string, text: string)

  datatype PromptResult = PromptResult(messages: seq<PromptMessage>)

  const Opening :=
    "You are a nutrition expert specializing in carbohydrate estimation for diabetes management. "
    + "Please analyze the following food description and provide an accurate carbohydrate estimate.\n\n"
  const FoodLabel := "Food Description: "
  const RequestLead := "\n\nPlease provide:\n1. Total carbohydrate estimate"
  const GramsPhrase := " in grams"
  const AndPhrase := " AND"
  const ExchangesPhrase := " in carbohydrate exchanges (15g = 1 exchange)"
  const Steps :=
    "\n2. Breakdown of individual components if multiple items are mentioned\n"
    + "3. Key assumptions made (e.g., serving sizes, preparation methods)\n"
  const ConfidenceLine := "4. Confidence level (high/medium/low) based on specificity of the description\n"
  const Closing :=
    "\nFormat your response clearly with the total at the top, followed by the detailed breakdown.\n"
    + "Be conservative in your estimates when dealing with ambiguous descriptions to help avoid hyperglycemia."

  /** `units || 'grams'` */
  function UnitsPreference(units: Option<Units>): (u: Units)
    ensures units.Some? ==> u == units.value
    ensures units.None? ==> u == Grams
  {
    if units.Some? then units.value else Grams
  }

  /** `confidence !== 'false'` */
  predicate IncludeConfidence(confidence: Option<string>): (b: bool)
    ensures confidence.None? ==> b
    ensures !b <==> confidence == Some("false")
  {
    confidence != Some("false")
  }

  /** The unit phrases appended after "1. Total carbohydrate estimate". */
  function UnitsPhrase(u: Units): string {
    (if u == Grams || u == Both then GramsPhrase else "")
    + (if u == Both then AndPhrase else "")
    + (if u == Exchanges || u == Both then ExchangesPhrase else "")
  }

  /** What follows the food description. */
  function Instructions(u: Units, includeConfidence: bool): string {
    RequestLead + UnitsPhrase(u) + Steps + (if includeConfidence then ConfidenceLine else "") + Closing
  }

  /** The prompt text as one concatenation of its parts. */
  function PromptText(food: string, u: Units, includeConfidence: bool): string {
    Opening + (FoodLabel + food) + Instructions(u, includeConfidence)
  }

  /** The prompt callback, building the text step by step. */
  method EstimateCarbs(food: string, units: Option<Units>, confidence: Option<string>) returns (result: PromptResult)
    ensures |result.messages| == 1
    ensures result.messages[0].role == "user" && result.messages[0].contentType == "text"
    ensures result.messages[0].text == PromptText(food, UnitsPreference(units), IncludeConfidence(confidence))
  {
    var unitsPreference := if units.Some? then units.value else Grams;
    var includeConfidence := confidence != Some("false");
    var promptText := Opening;
    promptText := promptText + (FoodLabel + food);
    ghost var head := promptText;
    promptText := promptText + RequestLead;
    // `unitsText` is what the unit steps have appended so far.
    ghost var unitsText := "";
    Append(head + RequestLead, unitsText, "");
    if unitsPreference == Grams || unitsPreference == Both {
      Append(head + RequestLead, unitsText, GramsPhrase);
      promptText, unitsText := promptText + GramsPhrase, unitsText + GramsPhrase;
    }
    if unitsPreference == Both {
      Append(head + RequestLead, unitsText, AndPhrase);
      promptText, unitsText := promptText + AndPhrase, unitsText + AndPhrase;
    }
    if unitsPreference == Exchanges || unitsPreference == Both {
      Append(head + RequestLead, unitsText, ExchangesPhrase);
      promptText, unitsText := promptText + ExchangesPhrase, unitsText + ExchangesPhrase;
    }
    assert unitsText == UnitsPhrase(unitsPreference) by {
      Append("", "", "");
      if unitsPreference == Grams || unitsPreference == Both {
        Append("", GramsPhrase, "");
      }
    }
    Append(head, RequestLead, UnitsPhrase(unitsPreference));
    ghost var body := RequestLead + UnitsPhrase(unitsPreference);
    assert promptText == head + body;
    Append(head, body, Steps);
    promptText, body := promptText + Steps, body + Steps;
    if includeConfidence {
      Append(head, body, ConfidenceLine);
      promptText, body := promptText + ConfidenceLine, body + ConfidenceLine;
    } else {
      // No line appended; restating `body` this way keeps the proof within bounds.
      Append(body, "", "");
      body := body + "";
    }
    Append(head, body, Closing);
    promptText, body := promptText + Closing, body + Closing;
    assert body == Instructions(unitsPreference, includeConfidence);
    result := PromptResult([PromptMessage("user", "text", promptText)]);
  }

  /** The food description appears verbatim right after "Food Description: ". */
  lemma FoodDescriptionVerbatim(food: string, u: Units, includeConfidence: bool)
    ensures var t := PromptText(food, u, includeConfidence);
      |Opening| + |FoodLabel| + |food| <= |t|
      && t[|Opening|..|Opening| + |FoodLabel| + |food|] == FoodLabel + food
  {
  }

  /** " in grams" opens the unit phrases exactly for grams and both. */
  lemma GramsPhraseIff(u: Units)
    ensures StartsWith(UnitsPhrase(u), GramsPhrase) <==> u == Grams || u == Both
  {
    if u == Exchanges {
      assert UnitsPhrase(u) == ExchangesPhrase;
      assert ExchangesPhrase[4] != GramsPhrase[4];
    }
  }

  /** The exchanges phrase closes the unit phrases exactly for exchanges and both. */
  lemma ExchangesPhraseIff(u: Units)
    ensures EndsWith(UnitsPhrase(u), ExchangesPhrase) <==> u == Exchanges || u == Both
  {
  }

  /** For both units " AND" sits between the grams and the exchanges phrase; otherwise it is absent. */
  lemma AndOnlyForBoth(u: Units)
    ensures u == Both ==> UnitsPhrase(u) == GramsPhrase + AndPhrase + ExchangesPhrase
    ensures u == Grams ==> UnitsPhrase(u) == GramsPhrase
    ensures u == Exchanges ==> UnitsPhrase(u) == ExchangesPhrase
  {
  }

  /** The confidence line stands just before the closing text exactly when it was asked for. */
  lemma ConfidenceLineIff(food: string, u: Units, includeConfidence: bool)
    ensures EndsWith(PromptText(food, u, includeConfidence), ConfidenceLine + Closing) <==> includeConfidence
  {
    var x := Opening + (FoodLabel + food);
    var y := RequestLead + UnitsPhrase(u);
    if includeConfidence {
      Append(y + Steps, ConfidenceLine, Closing);
      Append(x, y + Steps, ConfidenceLine + Closing);
      EndsWithAppended(x + (y + Steps), ConfidenceLine + Closing);
    } else {
      Append(y + Steps, "", Closing);
      Append(x, y + Steps, Closing);
      Append(x, y, Steps);
      SuffixMismatch(x + y, Steps, ConfidenceLine, Closing);
    }
  }

  /** Concatenation is associative and has "" as unit. */
  lemma Append(a: string, b: string, c: string)
    ensures (a + b) + c == a + (b + c)
    ensures a + "" == a && "" + a == a
  {
  }

  lemma EndsWithAppended(p: string, q: string)
    ensures EndsWith(p + q, q)
  {
  }

  /** A text ending in `s + cl` does not end in `c + cl` when `s` and `c` differ one place before their ends. */
  lemma SuffixMismatch(z: string, s: string, c: string, cl: string)
    requires |s| >= 2 && |c| >= 2 && s[|s| - 2] != c[|c| - 2]
    ensures !EndsWith((z + s) + cl, c + cl)
  {
    var t := (z + s) + cl;
    var n := |c| + |cl|;
    if n <= |t| {
      assert t[|t| - n..][|c| - 2] == t[|z| + |s| - 2] == s[|s| - 2];
      assert (c + cl)[|c| - 2] == c[|c| - 2];
      assert t[|t| - n..] != c + cl;
    }
  }

  /** True when `p` is a suffix of `s`. */
  predicate EndsWith(s: string, p: string) {
    |p| <= |s| && s[|s| - |p|..] == p
  }

  /** Prompt arguments after `argsSchema`. */
  datatype PromptArgs = PromptArgs(food: string, units: Option<Units>, confidence: Option<string>)

  function ParseUnits(s: string): Option<Units> {
    if s == "grams" then Some(Grams)
    else if s == "exchanges" then Some(Exchanges)
    else if s == "both" then Some(Both)
    else None
  }

  /**
   * `argsSchema`: a non-empty food description, units among grams, exchanges
   * and both when given, any confidence string.
   */
  function ValidatePromptArgs(args: map<string, string>): (r: Result<PromptArgs, seq<string>>)
    ensures r.Success? <==>
      "foodDescription" in args && args["foodDescription"] != ""
      && ("units" in args ==> ParseUnits(args["units"]).Some?)
    ensures r.Success? ==> r.value.food == args["foodDescription"] && |r.value.food| >= 1
    ensures r.Success? ==> (r.value.units.None? <==> "units" !in args)
    ensures r.Success? ==> (r.value.confidence.Some? <==> "confidence" in args)
    ensures r.Success? && "units" in args ==> r.value.units == ParseUnits(args["units"])
    ensures r.Success? && "confidence" in args ==> r.value.confidence == Some(args["confidence"])
  {
    var foodOk := "foodDescription" in args && args["foodDescription"] != "";
    var unitsOk := "units" !in args || ParseUnits(args["units"]).Some?;
    var issues := (if foodOk then [] else ["foodDescription"]) + (if unitsOk then [] else ["units"]);
    if issues != [] then Failure(issues)
    else Success(PromptArgs(
      args["foodDescription"],
      if "units" in args then ParseUnits(args["units"]) else None,
      if "confidence" in args then Some(args["confidence"]) else None))
  }
}
