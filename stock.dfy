/**
 * The market-data tool (app/tools/stock_data_api.py): `pe <TICKER>` and
 * `close <TICKER> [period] [interval]`, answered with text. The data provider is a
 * parameter of the model: the P/E lookup and the price-history download.
 */
module Stock {
  import opened Wrappers
  import opened Text

  const Quotes: set<char> := {'"', '\'', '“', '”', '’'}
  const TrailingPunctuation: set<char> := {'.', ':', ';'}

  /** No quotes, and plain spaces as the only whitespace. */
  ghost predicate PlainText(x: string) {
    Avoids(x, Quotes) && OnlyPlainSpaces(x)
  }

  /** `_sanitize_cmd`: drop quotes, turn every whitespace run into one space, trim, drop final `.`, `:`, `;`. */
  function SanitizeCmd(s: string): string {
    RStripChars(Strip(CollapseSpaces(RemoveChars(s, Quotes))), TrailingPunctuation)
  }

  /** Collapsing the whitespace of an unquoted text gives plain, single spaces. */
  lemma CollapsedPlain(u: string)
    requires Avoids(u, Quotes)
    ensures PlainText(CollapseSpaces(u))
  {
    CollapseSpacesPlain(u);
    CollapseSpacesAvoids(u, Quotes);
  }

  /** Stripping keeps a plain, single-spaced text so. */
  lemma StripKeepsPlain(c: string)
    requires PlainText(c) && NoDoubleSpace(c)
    ensures PlainText(Strip(c)) && NoDoubleSpace(Strip(c))
  {
    StripSlice(c);
  }

  /** So does every prefix of it. */
  lemma PrefixKeepsPlain(t: string, n: nat)
    requires PlainText(t) && NoDoubleSpace(t) && n <= |t|
    ensures PlainText(t[..n]) && NoDoubleSpace(t[..n])
  {
  }

  /** The sanitised command has no quotes, single plain spaces only, no leading space and no final `.`, `:` or `;`. */
  lemma SanitizeCmdClean(s: string)
    ensures var r := SanitizeCmd(s);
      && PlainText(r) && NoDoubleSpace(r)
      && (r == [] || (!IsSpace(r[0]) && r[|r| - 1] !in TrailingPunctuation))
  {
    var c := CollapseSpaces(RemoveChars(s, Quotes));
    CollapsedPlain(RemoveChars(s, Quotes));
    assert NoDoubleSpace(c);
    StripKeepsPlain(c);
    var t := Strip(c);
    PrefixKeepsPlain(t, |RStripChars(t, TrailingPunctuation)|);
  }

  /** A text with no quotes, single plain spaces, no space at either end and no final `.`, `:` or `;` is already sanitised. */
  lemma SanitizeCmdFixed(s: string)
    requires PlainText(s) && NoDoubleSpace(s)
    requires s == [] || (!IsSpace(s[0]) && !IsSpace(s[|s| - 1]) && s[|s| - 1] !in TrailingPunctuation)
    ensures SanitizeCmd(s) == s
  {
    assert RemoveChars(s, Quotes) == s;
    CollapseSpacesFixed(s);
    StripUnchanged(s);
    RStripCharsUnchanged(s, TrailingPunctuation);
  }

  /** `q.replace(",", " ").split()`: commas separate tokens just as whitespace does. */
  function Tokenize(cmd: string): (parts: seq<string>)
    ensures forall i :: 0 <= i < |parts| ==> parts[i] != [] && NoSpace(parts[i])
  {
    SplitWs(ReplaceChars(cmd, {','}, ' '))
  }

  /** No token holds a comma. */
  lemma TokensHaveNoComma(cmd: string)
    ensures forall i, c :: 0 <= i < |Tokenize(cmd)| && c in Tokenize(cmd)[i] ==> c != ','
  {
    var spaced := ReplaceChars(cmd, {','}, ' ');
    SplitWsChars(spaced);
    forall i, c | 0 <= i < |Tokenize(cmd)| && c in Tokenize(cmd)[i] ensures c != ',' {
      assert c in spaced;
      var k :| 0 <= k < |spaced| && spaced[k] == c;
    }
  }

  /** The command's tokens: the sanitised query, split on whitespace and commas. */
  function Parts(query: string): seq<string> {
    Tokenize(SanitizeCmd(query))
  }

  /** A word a command can carry through unchanged: non-empty, with no whitespace, comma or quote. */
  ghost predicate CleanWord(w: string) {
    w != [] && NoSpace(w) && Avoids(w, Quotes + {','})
  }

  /** Clean words joined by single spaces: plain single spacing, no quote or comma, no space at either end. */
  lemma {:induction false} JoinPlain(ws: seq<string>)
    requires |ws| >= 1 && forall i :: 0 <= i < |ws| ==> CleanWord(ws[i])
    ensures var s, w := Join(ws, " "), ws[|ws| - 1];
      && s != [] && !IsSpace(s[0]) && w != [] && s[|s| - 1] == w[|w| - 1]
      && Avoids(s, Quotes + {','}) && OnlyPlainSpaces(s) && NoDoubleSpace(s)
  {
    var w := ws[0];
    assert CleanWord(w);
    if |ws| > 1 {
      var rest := Join(ws[1..], " ");
      JoinPlain(ws[1..]);
      var s := w + " " + rest;
      assert Join(ws, " ") == s;
      forall i | 0 <= i < |s|
        ensures s[i] !in Quotes + {','} && (IsSpace(s[i]) ==> s[i] == ' ')
      {
        if i < |w| {
          assert s[i] == w[i];
        } else if i > |w| {
          assert s[i] == rest[i - |w| - 1];
        }
      }
      forall i, j | 0 <= i < j < |s| && j == i + 1 ensures !(IsSpace(s[i]) && IsSpace(s[j])) {
        if j < |w| {
          assert s[i] == w[i];
        } else if i > |w| {
          assert s[i] == rest[i - |w| - 1] && s[j] == rest[j - |w| - 1];
        } else if j == |w| {
          assert s[i] == w[|w| - 1];
        } else {
          assert s[j] == rest[0];
        }
      }
    }
  }

  /** Clean words joined by single spaces, the last not ending in `.`, `:` or `;`, are the command's tokens exactly. */
  lemma PartsOfJoin(ws: seq<string>)
    requires |ws| >= 1 && forall i :: 0 <= i < |ws| ==> CleanWord(ws[i])
    requires var w := ws[|ws| - 1]; w != [] && w[|w| - 1] !in TrailingPunctuation
    ensures Parts(Join(ws, " ")) == ws
  {
    var s := Join(ws, " ");
    JoinPlain(ws);
    assert CleanWord(ws[|ws| - 1]);
    SanitizeCmdFixed(s);
    ReplaceNothing(s, {','}, ' ');
    forall i | 0 <= i < |ws| ensures ws[i] != [] && NoSpace(ws[i]) {
      assert CleanWord(ws[i]);
    }
    SplitWsJoin(ws);
  }

  /** What `yf.download` gives back: an exception message, or the closing prices (`None` for NaN). */
  datatype Download = Raised(message: string) | Table(closes: seq<Option<real>>)

  /** The message of the `IndexError` raised by `.iloc[-1]` on an empty series. */
  const EmptySeriesError := "single positional indexer is out-of-bounds"

  /** `hist["Close"].dropna().iloc[-1]`: the last closing price that is a number. */
  function LastClose(closes: seq<Option<real>>): Option<real> {
    if closes == [] then None
    else if closes[|closes| - 1].Some? then closes[|closes| - 1]
    else LastClose(closes[..|closes| - 1])
  }

  /** `LastClose` is `None` exactly when every price is NaN, and otherwise the last price that is not. */
  lemma {:induction false} LastCloseSpec(closes: seq<Option<real>>)
    ensures LastClose(closes).None? <==> forall i :: 0 <= i < |closes| ==> closes[i].None?
    ensures LastClose(closes).Some? ==>
              exists i :: 0 <= i < |closes| && closes[i] == LastClose(closes)
                          && forall j :: i < j < |closes| ==> closes[j].None?
  {
    if closes != [] && closes[|closes| - 1].None? {
      var init := closes[..|closes| - 1];
      LastCloseSpec(init);
      assert forall i :: 0 <= i < |init| ==> init[i] == closes[i];
      if LastClose(init).Some? {
        var i :| 0 <= i < |init| && init[i] == LastClose(init) && forall j :: i < j < |init| ==> init[j].None?;
        assert closes[i] == LastClose(closes);
      }
    }
  }

  /** The tool's outcomes. */
  datatype Reply =
    | EmptyCommand
    | UnknownCommand(cmd: string)
    | PeUsage
    | PeUnavailable(ticker: string)
    | Pe(ticker: string, pe: real)
    | CloseUsage
    | NoData(ticker: string, period: string, interval: string)
    | Close(ticker: string, period: string, interval: string, last: real)
    | FetchError(ticker: string, message: string)

  /** `_cmd_pe`, with `_safe_pe` (which never raises) as `safePe`. */
  function CmdPe(parts: seq<string>, safePe: string -> Option<real>): (r: Reply)
    ensures |parts| < 2 <==> r == PeUsage
    ensures |parts| >= 2 ==> (r.PeUnavailable? || r.Pe?) && r.ticker == UpperStr(parts[1])
    ensures |parts| >= 2 ==> (r.PeUnavailable? <==> safePe(UpperStr(parts[1])).None?)
    ensures r.Pe? ==> safePe(r.ticker) == Some(r.pe)
  {
    if |parts| < 2 then PeUsage
    else
      var ticker := UpperStr(parts[1]);
      match safePe(ticker)
      case None => PeUnavailable(ticker)
      case Some(pe) => Pe(ticker, pe)
  }

  /** `_cmd_close`, with `yf.download` as `download`. */
  function CmdClose(parts: seq<string>, download: (string, string, string) -> Download): (r: Reply)
    ensures |parts| < 2 <==> r == CloseUsage
    ensures |parts| >= 2 ==> (r.NoData? || r.Close? || r.FetchError?) && r.ticker == UpperStr(parts[1])
    ensures r.NoData? || r.Close? ==>
              r.period == (if |parts| >= 3 then parts[2] else "1mo")
              && r.interval == (if |parts| >= 4 then parts[3] else "1d")
    ensures r.Close? ==> download(r.ticker, r.period, r.interval).Table?
                         && LastClose(download(r.ticker, r.period, r.interval).closes) == Some(r.last)
    ensures r.NoData? ==> download(r.ticker, r.period, r.interval) == Table([])
    ensures |parts| >= 2 ==>
              var ticker := UpperStr(parts[1]);
              var period := if |parts| >= 3 then parts[2] else "1mo";
              var interval := if |parts| >= 4 then parts[3] else "1d";
              var d := download(ticker, period, interval);
              && (d.Raised? ==> r == FetchError(ticker, d.message))
              && (d == Table([]) ==> r == NoData(ticker, period, interval))
              && (d.Table? && d.closes != [] && LastClose(d.closes).Some? ==>
                    r == Close(ticker, period, interval, LastClose(d.closes).value))
              && (d.Table? && d.closes != [] && LastClose(d.closes).None? ==>
                    r == FetchError(ticker, EmptySeriesError))
  {
    if |parts| < 2 then CloseUsage
    else
      var ticker := UpperStr(parts[1]);
      var period := if |parts| >= 3 then parts[2] else "1mo";
      var interval := if |parts| >= 4 then parts[3] else "1d";
      match download(ticker, period, interval)
      case Raised(msg) => FetchError(ticker, msg)
      case Table(closes) =>
        if closes == [] then NoData(ticker, period, interval)
        else
          match LastClose(closes)
          case Some(last) => Close(ticker, period, interval, last)
          case None => FetchError(ticker, EmptySeriesError)
  }

  /** Tokens after the fourth never reach the provider. */
  lemma CloseIgnoresExtraTokens(parts: seq<string>, extra: seq<string>, download: (string, string, string) -> Download)
    requires |parts| == 4
    ensures CmdClose(parts + extra, download) == CmdClose(parts, download)
  {
    assert (parts + extra)[1] == parts[1] && (parts + extra)[2] == parts[2] && (parts + extra)[3] == parts[3];
  }

  /** `_stock_api_fn` once the query is split: the command word, lower-cased, picks the command. */
  function RunCommand(parts: seq<string>, safePe: string -> Option<real>,
                      download: (string, string, string) -> Download): (r: Reply)
    ensures parts == [] <==> r == EmptyCommand
    ensures r.UnknownCommand? <==> parts != [] && LowerStr(parts[0]) != "pe" && LowerStr(parts[0]) != "close"
    ensures r.UnknownCommand? ==> r.cmd == LowerStr(parts[0])
    ensures parts != [] && LowerStr(parts[0]) == "pe" ==> r == CmdPe(parts, safePe)
    ensures parts != [] && LowerStr(parts[0]) == "close" ==> r == CmdClose(parts, download)
  {
    if parts == [] then EmptyCommand
    else
      var cmd := LowerStr(parts[0]);
      if cmd == "pe" then CmdPe(parts, safePe)
      else if cmd == "close" then CmdClose(parts, download)
      else UnknownCommand(cmd)
  }

  /** `_stock_api_fn`: the reply to a query. */
  function StockApi(query: string, safePe: string -> Option<real>,
                    download: (string, string, string) -> Download): Reply
  {
    RunCommand(Parts(query), safePe, download)
  }

  /** Every outcome but the usage and command errors names an upper-case ticker. */
  lemma TickerUpperCase(parts: seq<string>, safePe: string -> Option<real>,
                        download: (string, string, string) -> Download)
    ensures var r := RunCommand(parts, safePe, download);
      (r.PeUnavailable? || r.Pe? || r.NoData? || r.Close? || r.FetchError?) ==>
        forall i :: 0 <= i < |r.ticker| ==> !IsLowerCase(r.ticker[i])
  {
  }

  /** The tool's answer text; `fixed2` renders a number with two decimals, `{:.2f}`. */
  function Message(r: Reply, fixed2: real -> string): string {
    match r
    case EmptyCommand => "Commande vide. Ex: 'pe AAPL' ou 'close AAPL 1mo 1d'"
    case UnknownCommand(cmd) => "Commande inconnue: '" + cmd + "'. Commandes valides: 'pe', 'close'."
    case PeUsage => "Usage: pe <TICKER> (ex: pe AAPL)"
    case PeUnavailable(t) => "P/E indisponible pour " + t + "."
    case Pe(t, pe) => "P/E (TTM) " + t + " ≈ " + fixed2(pe)
    case CloseUsage => "Usage: close <TICKER> [period] [interval] (ex: close AAPL 1mo 1d)"
    case NoData(t, p, i) => "Aucune donnée pour " + t + " (period=" + p + ", interval=" + i + ")."
    case Close(t, p, i, last) => "Close " + t + " (" + p + "/" + i + ") = " + fixed2(last)
    case FetchError(t, msg) => "Erreur récupération cours pour " + t + ": " + msg
  }
}
