/**
 * The financial calculator tool (app/tools/calculatrice_financiere.py): a one-command
 * grammar `cagr <v0> <v1> <years>` (alias `cag`) that answers with text and never raises
 * on bad input. Number parsing and the formatted result are parameters of the model.
 */
module Calculator {
  import opened Wrappers
  import opened Text

  /** The quote characters removed from commands: `" ' “ ” ’`. */
  const Quotes: set<char> := {'"', '\'', '“', '”', '’'}
  /** Trailing punctuation stripped from commands. */
  const TrailingPunctuation: set<char> := {'.', ':', ';'}

  /** `re.sub(r'["\'“”’]', "", query).strip().rstrip(".:;")` */
  function Sanitize(query: string): (q: string)
    ensures forall i :: 0 <= i < |q| ==> q[i] !in Quotes && q[i] in query
    ensures q == [] || (!IsSpace(q[0]) && q[|q| - 1] !in TrailingPunctuation)
    ensures |q| <= |query|
  {
    var unquoted := RemoveChars(query, Quotes);
    var stripped := Strip(unquoted);
    StripChars(unquoted);
    RStripChars(stripped, TrailingPunctuation)
  }

  /** `q.split()` on the sanitised command. */
  function Tokens(query: string): (parts: seq<string>)
    ensures forall i :: 0 <= i < |parts| ==> parts[i] != [] && NoSpace(parts[i])
    ensures parts == [] <==> AllSpace(Sanitize(query))
  {
    SplitWs(Sanitize(query))
  }

  /** Tokens carry no quote character. */
  lemma TokensUnquoted(query: string)
    ensures forall i, c :: 0 <= i < |Tokens(query)| && c in Tokens(query)[i] ==> c !in Quotes
  {
    var q := Sanitize(query);
    SplitWsChars(q);
    forall i, c | 0 <= i < |Tokens(query)| && c in Tokens(query)[i] ensures c !in Quotes {
      assert c in q;
      var k :| 0 <= k < |q| && q[k] == c;
    }
  }

  /** The command words, compared after lower-casing. */
  predicate IsCagrWord(w: string) {
    LowerStr(w) == "cag" || LowerStr(w) == "cagr"
  }

  /** The outcomes of the tool; each is rendered as a fixed text, or the CAGR line for `Cagr`. */
  datatype Reply =
    | EmptyCommand
    | Usage
    | InvalidParameters
    | NotPositive
    | UnknownCommand
    | Cagr(v0: real, v1: real, years: real)

  /** `_calc_fin_fn`, with `float()` as `parseFloat` (`None` where it raises `ValueError`). */
  function CalcFin(query: string, parseFloat: string -> Option<real>): (r: Reply)
    ensures var t := Tokens(query);
      && (r == EmptyCommand <==> t == [])
      && (r == UnknownCommand <==> t != [] && !IsCagrWord(t[0]))
      && (r == Usage <==> t != [] && IsCagrWord(t[0]) && |t| != 4)
      && (r == InvalidParameters <==>
            |t| == 4 && IsCagrWord(t[0])
            && (parseFloat(t[1]).None? || parseFloat(t[2]).None? || parseFloat(t[3]).None?))
      && (r == NotPositive <==>
            |t| == 4 && IsCagrWord(t[0])
            && parseFloat(t[1]).Some? && parseFloat(t[2]).Some? && parseFloat(t[3]).Some?
            && (parseFloat(t[1]).value <= 0.0 || parseFloat(t[2]).value <= 0.0 || parseFloat(t[3]).value <= 0.0))
      && (r.Cagr? <==>
            |t| == 4 && IsCagrWord(t[0])
            && parseFloat(t[1]).Some? && parseFloat(t[2]).Some? && parseFloat(t[3]).Some?
            && parseFloat(t[1]).value > 0.0 && parseFloat(t[2]).value > 0.0 && parseFloat(t[3]).value > 0.0)
      && (r.Cagr? ==>
            parseFloat(t[1]) == Some(r.v0) && parseFloat(t[2]) == Some(r.v1) && parseFloat(t[3]) == Some(r.years))
  {
    var parts := Tokens(query);
    if parts == [] then EmptyCommand
    else if !IsCagrWord(parts[0]) then UnknownCommand
    else if |parts| != 4 then Usage
    else
      match (parseFloat(parts[1]), parseFloat(parts[2]), parseFloat(parts[3]))
      case (Some(v0), Some(v1), Some(n)) =>
        if v0 <= 0.0 || v1 <= 0.0 || n <= 0.0 then NotPositive else Cagr(v0, v1, n)
      case _ => InvalidParameters
  }

  /** A computed growth rate always comes from strictly positive inputs. */
  lemma CagrInputsPositive(query: string, parseFloat: string -> Option<real>)
    requires CalcFin(query, parseFloat).Cagr?
    ensures var r := CalcFin(query, parseFloat); r.v0 > 0.0 && r.v1 > 0.0 && r.years > 0.0
  {
  }

  /** The tool's answer: fixed texts, and `render` for the formatted CAGR line. */
  function Message(r: Reply, render: (real, real, real) -> string): string {
    match r
    case EmptyCommand => "Commande vide. Ex: 'cagr 1000 1300 3'"
    case Usage => "Usage: cagr <val_init> <val_fin> <années> (ex: cagr 1000 1300 3)"
    case InvalidParameters => "Paramètres invalides. Ex: cagr 1000 1300 3"
    case NotPositive => "Les valeurs et la durée doivent être strictement positives."
    case UnknownCommand => "Commande inconnue. Utilise: cagr <val_init> <val_fin> <années>"
    case Cagr(v0, v1, n) => render(v0, v1, n)
  }

  /** The whole tool: the answer text for a query. */
  function CalcFinText(query: string, parseFloat: string -> Option<real>,
                       render: (real, real, real) -> string): string
  {
    Message(CalcFin(query, parseFloat), render)
  }

  /** Nothing is computed or formatted unless all three numbers parse and are positive. */
  lemma RenderOnlyForCagr(query: string, parseFloat: string -> Option<real>,
                          render1: (real, real, real) -> string, render2: (real, real, real) -> string)
    requires !CalcFin(query, parseFloat).Cagr?
    ensures CalcFinText(query, parseFloat, render1) == CalcFinText(query, parseFloat, render2)
  {
  }

  /** A word is a clean token: non-empty, without whitespace or quotes. */
  predicate CleanToken(w: string) {
    w != [] && NoSpace(w) && forall i :: 0 <= i < |w| ==> w[i] !in Quotes
  }

  /** Clean tokens joined by single spaces: no quotes, no whitespace at either end, and the last token's last character at the end. */
  lemma {:induction false} JoinClean(ws: seq<string>)
    requires |ws| >= 1 && forall i :: 0 <= i < |ws| ==> CleanToken(ws[i])
    ensures var s, w := Join(ws, " "), ws[|ws| - 1];
      && s != [] && !IsSpace(s[0]) && w != [] && s[|s| - 1] == w[|w| - 1]
      && forall i :: 0 <= i < |s| ==> s[i] !in Quotes
  {
    if |ws| > 1 {
      var rest := Join(ws[1..], " ");
      JoinClean(ws[1..]);
      var s := ws[0] + " " + rest;
      assert Join(ws, " ") == s;
      forall i | 0 <= i < |s| ensures s[i] !in Quotes {
        if i < |ws[0]| {
          assert s[i] == ws[0][i];
        } else if i > |ws[0]| {
          assert s[i] == rest[i - |ws[0]| - 1];
        }
      }
    }
  }

  /** Clean tokens joined by single spaces, the last not ending in `.`, `:` or `;`, are tokenised back exactly. */
  lemma TokensOfJoin(ws: seq<string>)
    requires |ws| >= 1 && forall i :: 0 <= i < |ws| ==> CleanToken(ws[i])
    requires var w := ws[|ws| - 1]; w != [] && w[|w| - 1] !in TrailingPunctuation
    ensures Tokens(Join(ws, " ")) == ws
  {
    var s := Join(ws, " ");
    JoinClean(ws);
    var w := ws[|ws| - 1];
    assert s[|s| - 1] == w[|w| - 1];
    assert s[|s| - 1] !in TrailingPunctuation;
    assert RemoveChars(s, Quotes) == s;
    assert !IsSpace(s[|s| - 1]);
    StripUnchanged(s);
    RStripCharsUnchanged(s, TrailingPunctuation);
    assert Sanitize(s) == s;
    forall i | 0 <= i < |ws| ensures ws[i] != [] && NoSpace(ws[i]) {
      assert CleanToken(ws[i]);
    }
    SplitWsJoin(ws);
  }

  /**
   * A well-formed command such as the documented `cagr 1000 1300 3`: the word and three
   * clean numbers separated by single spaces, the last not ending in `.`, `:` or `;`,
   * is a CAGR request on exactly those numbers.
   */
  lemma WellFormedCommand(word: string, a: string, b: string, c: string, parseFloat: string -> Option<real>)
    requires IsCagrWord(word) && CleanToken(word)
    requires CleanToken(a) && CleanToken(b) && CleanToken(c) && c[|c| - 1] !in TrailingPunctuation
    requires parseFloat(a).Some? && parseFloat(a).value > 0.0
    requires parseFloat(b).Some? && parseFloat(b).value > 0.0
    requires parseFloat(c).Some? && parseFloat(c).value > 0.0
    ensures CalcFin(Join([word, a, b, c], " "), parseFloat)
         == Cagr(parseFloat(a).value, parseFloat(b).value, parseFloat(c).value)
  {
    var ws := [word, a, b, c];
    TokensOfJoin(ws);
    CagrFromTokens(Join(ws, " "), parseFloat);
  }

  /** Four tokens led by the command word, with three positive numbers, give the CAGR on them. */
  lemma CagrFromTokens(query: string, parseFloat: string -> Option<real>)
    requires var t := Tokens(query);
      && |t| == 4 && IsCagrWord(t[0])
      && parseFloat(t[1]).Some? && parseFloat(t[1]).value > 0.0
      && parseFloat(t[2]).Some? && parseFloat(t[2]).value > 0.0
      && parseFloat(t[3]).Some? && parseFloat(t[3]).value > 0.0
    ensures var t := Tokens(query);
      CalcFin(query, parseFloat) == Cagr(parseFloat(t[1]).value, parseFloat(t[2]).value, parseFloat(t[3]).value)
  {
  }
}
