/**
 * The e-mail tools (app/tools/email_tools.py): the `to:/subject:/body:` parser with its
 * body-continuation state machine, the draft tool, the SMTP configuration and the send
 * tool up to the choice of transport. Address validation, `int()` on the port and the
 * environment are parameters of the model; the SMTP session itself is not modelled.
 */
module Email {
  import opened Wrappers
  import opened Text
  import opened Config

  // ---------------------------------------------------------------- sanitising

  /** The typographic quotes replaced by `'`. */
  const SmartQuotes: set<char> := {'“', '”', '’'}

  /** `_sanitize`: `\r` to space, trim, typographic quotes to `'`, every whitespace run to one space. */
  function Sanitize(s: string): string {
    CollapseSpaces(ReplaceChars(Strip(ReplaceChars(s, {'\r'}, ' ')), SmartQuotes, '\''))
  }

  /** Replacing the quotes of a stripped text keeps both of its ends non-blank and leaves no quote. */
  lemma QuotesReplaced(t: string)
    requires t == [] || (!IsSpace(t[0]) && !IsSpace(t[|t| - 1]))
    ensures var u := ReplaceChars(t, SmartQuotes, '\'');
      && Avoids(u, SmartQuotes)
      && (u == [] || (!IsSpace(u[0]) && !IsSpace(u[|u| - 1])))
  {
  }

  /** A text with plain single spaces only holds no line boundary. */
  lemma PlainSpacesNoLineBreak(r: string)
    requires OnlyPlainSpaces(r)
    ensures NoLineBreak(r)
  {
    forall i | 0 <= i < |r| ensures !IsLineBreak(r[i]) {
    }
  }

  /** What `_sanitize` produces: no blank ends, plain single spaces, no typographic quote. */
  ghost predicate SanitizedForm(r: string) {
    && (r == [] || (!IsSpace(r[0]) && !IsSpace(r[|r| - 1])))
    && OnlyPlainSpaces(r) && NoDoubleSpace(r) && Avoids(r, SmartQuotes)
  }

  /**
   * The sanitised text has no whitespace at either end, no whitespace but single plain
   * spaces, hence no line boundary at all, and no typographic quote.
   */
  lemma SanitizeClean(s: string)
    ensures SanitizedForm(Sanitize(s)) && NoLineBreak(Sanitize(s))
  {
    var t := Strip(ReplaceChars(s, {'\r'}, ' '));
    QuotesReplaced(t);
    var u := ReplaceChars(t, SmartQuotes, '\'');
    CollapseSpacesPlain(u);
    CollapseSpacesAvoids(u, SmartQuotes);
    PlainSpacesNoLineBreak(Sanitize(s));
  }

  /** Text already in sanitised form is left unchanged, so sanitising is idempotent. */
  lemma SanitizeFixes(r: string)
    requires SanitizedForm(r)
    ensures Sanitize(r) == r
  {
    assert Avoids(r, {'\r'});
    ReplaceNothing(r, {'\r'}, ' ');
    StripUnchanged(r);
    ReplaceNothing(r, SmartQuotes, '\'');
    CollapseSpacesFixed(r);
  }

  // ---------------------------------------------------------------- parsing

  /** What a trimmed line introduces. */
  datatype Key = ToKey | SubjectKey | BodyKey | Unprefixed

  /** The recognised prefixes, compared with the lower-cased line in this order. */
  function KeyOf(ln: string): Key {
    var low := LowerStr(ln);
    if StartsWith(low, "to:") || StartsWith(low, "à:") then ToKey
    else if StartsWith(low, "subject:") || StartsWith(low, "objet:") then SubjectKey
    else if StartsWith(low, "body:") || StartsWith(low, "corps:") then BodyKey
    else Unprefixed
  }

  /** Lower-casing maps a character to `:` only when it is `:`. */
  lemma ColonAt(ln: string, k: nat)
    requires k < |ln| && LowerStr(ln)[k] == ':'
    ensures ':' in ln
  {
    assert ln[k] == ':';
  }

  /** A recognised line holds a colon, so `split(":", 1)[1]` exists. */
  lemma KeyedHasColon(ln: string)
    requires KeyOf(ln) != Unprefixed
    ensures ':' in ln
  {
    var low := LowerStr(ln);
    if StartsWith(low, "to:") {
      ColonAt(ln, 2);
    } else if StartsWith(low, "à:") {
      ColonAt(ln, 1);
    } else if StartsWith(low, "subject:") {
      ColonAt(ln, 7);
    } else if StartsWith(low, "objet:") {
      ColonAt(ln, 5);
    } else if StartsWith(low, "body:") {
      ColonAt(ln, 4);
    } else {
      ColonAt(ln, 5);
    }
  }

  /** `ln.split(":", 1)[1].strip()`: the trimmed text after the first colon. */
  function ValueOf(ln: string): string
    requires ':' in ln
  {
    Strip(SplitOnce(ln, ':').1)
  }

  /** The parser's variables: the three fields, the `in_body` flag and the `buf_body` list. */
  datatype ParseState = ParseState(to: Option<string>, subject: Option<string>, body: Option<string>,
                                   inBody: bool, buf: seq<string>)

  const Start := ParseState(None, None, None, false, [])

  /** One iteration of the loop of `_parse_keyvals`. */
  function Step(st: ParseState, ln: string): ParseState {
    match KeyOf(ln)
    case ToKey => KeyedHasColon(ln); st.(to := Some(ValueOf(ln)), inBody := false)
    case SubjectKey => KeyedHasColon(ln); st.(subject := Some(ValueOf(ln)), inBody := false)
    case BodyKey => KeyedHasColon(ln); st.(body := Some(ValueOf(ln)), inBody := true)
    case Unprefixed => if st.inBody then st.(buf := st.buf + [ln]) else st
  }

  /** The loop run over `lines`. */
  function Scan(lines: seq<string>): ParseState
    decreases |lines|
  {
    if lines == [] then Start else Step(Scan(lines[..|lines| - 1]), lines[|lines| - 1])
  }

  /** The parser's result. */
  datatype Fields = Fields(to: Option<string>, subject: Option<string>, body: Option<string>)

  /** After the loop: buffered lines of a final body section are appended to the body. */
  function Finish(st: ParseState): Fields {
    if st.inBody && st.buf != [] then
      var more := Join(st.buf, "\n");
      Fields(st.to, st.subject, Some(if Truthy(st.body) then Strip(st.body.value + "\n" + more) else Strip(more)))
    else
      Fields(st.to, st.subject, st.body)
  }

  /** `[l.strip() for l in lines if l.strip()]` */
  function NonBlank(lines: seq<string>): (r: seq<string>)
    ensures |r| <= |lines|
    ensures forall i :: 0 <= i < |r| ==> r[i] != []
  {
    if lines == [] then []
    else (if Strip(lines[0]) != [] then [Strip(lines[0])] else []) + NonBlank(lines[1..])
  }

  /** The result of `_parse_keyvals` on `text`. */
  function ParseSpec(text: string): Fields {
    Finish(Scan(NonBlank(SplitLines(text))))
  }

  /** Scanning one more line of `lines` runs one more step. */
  lemma ScanPrefix(lines: seq<string>, i: nat)
    requires i < |lines|
    ensures Scan(lines[..i + 1]) == Step(Scan(lines[..i]), lines[i])
  {
    assert lines[..i + 1][..i] == lines[..i];
  }

  /** `_parse_keyvals`: the loop over the non-blank trimmed lines, then the body continuation. */
  method ParseKeyvals(text: string) returns (to: Option<string>, subject: Option<string>, body: Option<string>)
    ensures Fields(to, subject, body) == ParseSpec(text)
  {
    to, subject, body := None, None, None;
    var lines := NonBlank(SplitLines(text));
    var buf: seq<string> := [];
    var inBody := false;
    var i := 0;
    while i < |lines|
      invariant 0 <= i <= |lines|
      invariant ParseState(to, subject, body, inBody, buf) == Scan(lines[..i])
    {
      var ln := lines[i];
      ScanPrefix(lines, i);
      match KeyOf(ln) {
        case ToKey =>
          KeyedHasColon(ln);
          to := Some(ValueOf(ln));
          inBody := false;
        case SubjectKey =>
          KeyedHasColon(ln);
          subject := Some(ValueOf(ln));
          inBody := false;
        case BodyKey =>
          KeyedHasColon(ln);
          body := Some(ValueOf(ln));
          inBody := true;
        case Unprefixed =>
          if inBody {
            buf := buf + [ln];
          }
      }
      i := i + 1;
    }
    assert lines[..i] == lines;
    if inBody && buf != [] {
      var more := Join(buf, "\n");
      body := Some(if Truthy(body) then Strip(body.value + "\n" + more) else Strip(more));
    }
  }

  // ---------------------------------------------------------------- what the parser keeps

  /** The value of the last line introducing `k`, if any: the reference for "later lines override". */
  function LastValue(lines: seq<string>, k: Key): Option<string>
    decreases |lines|
  {
    if lines == [] then None
    else
      var ln := lines[|lines| - 1];
      if KeyOf(ln) == k && k != Unprefixed then KeyedHasColon(ln); Some(ValueOf(ln))
      else LastValue(lines[..|lines| - 1], k)
  }

  /** The key of the last recognised line, if any. */
  function LastKey(lines: seq<string>): Option<Key>
    decreases |lines|
  {
    if lines == [] then None
    else if KeyOf(lines[|lines| - 1]) != Unprefixed then Some(KeyOf(lines[|lines| - 1]))
    else LastKey(lines[..|lines| - 1])
  }

  /**
   * Each field holds the value of the last line that introduced it, and the parser is in a
   * body section exactly when the last recognised line was `body:`/`corps:`.
   */
  lemma {:induction false} ScanKeepsLast(lines: seq<string>)
    ensures Scan(lines).to == LastValue(lines, ToKey)
    ensures Scan(lines).subject == LastValue(lines, SubjectKey)
    ensures Scan(lines).body == LastValue(lines, BodyKey)
    ensures Scan(lines).inBody <==> LastKey(lines) == Some(BodyKey)
    decreases |lines|
  {
    if lines != [] {
      ScanKeepsLast(lines[..|lines| - 1]);
    }
  }

  /** One step only ever appends to the buffer. */
  lemma StepKeepsBuffer(st: ParseState, ln: string)
    ensures st.buf <= Step(st, ln).buf
  {
  }

  /** Scanning a sequence runs one more step after scanning all but its last line. */
  lemma ScanLast(a: seq<string>, b: seq<string>)
    requires b != []
    ensures Scan(a + b) == Step(Scan(a + b[..|b| - 1]), b[|b| - 1])
  {
    assert (a + b)[..|a + b| - 1] == a + b[..|b| - 1];
  }

  /** The body-line buffer is never reset: what it holds after `a` is a prefix of what it holds after `a + b`. */
  lemma {:induction false} BufferNeverReset(a: seq<string>, b: seq<string>)
    ensures Scan(a).buf <= Scan(a + b).buf
    decreases |b|
  {
    if b == [] {
      assert a + b == a;
    } else {
      var b' := b[..|b| - 1];
      BufferNeverReset(a, b');
      ScanLast(a, b);
      StepKeepsBuffer(Scan(a + b'), b[|b| - 1]);
    }
  }

  /**
   * To and subject are the last values given. When the last recognised line is not
   * `body:`/`corps:`, unprefixed lines are discarded and the body is the last one given.
   */
  lemma ParseKeepsLast(text: string)
    ensures var lines, f := NonBlank(SplitLines(text)), ParseSpec(text);
      && f.to == LastValue(lines, ToKey)
      && f.subject == LastValue(lines, SubjectKey)
      && (LastKey(lines) != Some(BodyKey) ==> f.body == LastValue(lines, BodyKey))
  {
    ScanKeepsLast(NonBlank(SplitLines(text)));
  }

  /** An unprefixed line outside a body section changes nothing; inside one it is buffered. */
  lemma UnprefixedOnlyBuffered(st: ParseState, ln: string)
    requires KeyOf(ln) == Unprefixed
    ensures Step(st, ln) == if st.inBody then st.(buf := st.buf + [ln]) else st
  {
  }

  /** How many of the three fields are set. */
  function FieldCount(f: Fields): nat {
    (if f.to.Some? then 1 else 0) + (if f.subject.Some? then 1 else 0) + (if f.body.Some? then 1 else 0)
  }

  /** A text without line boundaries is at most one line, and one line sets at most one field. */
  lemma OneLineOneField(text: string)
    requires NoLineBreak(text)
    ensures FieldCount(ParseSpec(text)) <= 1
  {
    var lines := NonBlank(SplitLines(text));
    if SplitLines(text) != [] {
      assert SplitLines(text)[1..] == [];
      if Strip(text) != [] {
        assert lines == [Strip(text)];
        OneLineFields(Strip(text));
      }
    }
  }

  /** A single line sets at most one field and buffers nothing. */
  lemma OneLineFields(ln: string)
    ensures FieldCount(Finish(Scan([ln]))) <= 1
  {
    assert [ln][..0] == [];
  }

  /** Whatever the query, the parser sees the sanitised text as a single line and sets at most one field. */
  lemma SanitizedSetsOneField(query: string)
    ensures FieldCount(ParseSpec(Sanitize(query))) <= 1
  {
    SanitizeClean(query);
    OneLineOneField(Sanitize(query));
  }

  // ---------------------------------------------------------------- draft

  const DefaultSubject := "Demande d'information"
  const DefaultBody :=
    "Bonjour,\n\nJe me permets de vous contacter au sujet de ...\n\nPourriez-vous me confirmer ... ?\n\nBien cordialement,\nDiallo Mamadou Cherif"

  /** The draft's lines: `to:` only when a recipient is given, then `subject:` and `body:` with their defaults. */
  function DraftLines(f: Fields): (h: seq<string>)
    ensures |h| == if Truthy(f.to) then 3 else 2
    ensures Truthy(f.to) ==> h[0] == "to: " + f.to.value
    ensures h[|h| - 2] == "subject: " + (if Truthy(f.subject) then f.subject.value else DefaultSubject)
    ensures h[|h| - 1] == "body: " + (if Truthy(f.body) then f.body.value else DefaultBody)
  {
    (if Truthy(f.to) then ["to: " + f.to.value] else [])
    + ["subject: " + (if Truthy(f.subject) then f.subject.value else DefaultSubject)]
    + ["body: " + (if Truthy(f.body) then f.body.value else DefaultBody)]
  }

  /** `_draft_email_fn`: parse the sanitised query, then build the draft. */
  method DraftEmail(query: string) returns (text: string)
    ensures text == Join(DraftLines(ParseSpec(Sanitize(query))), "\n")
  {
    var q := Sanitize(query);
    var to, subject, body := ParseKeyvals(q);
    text := BuildDraft(to, subject, body);
  }

  /** The defaults filled in and the header list built line by line, then joined with newlines. */
  method BuildDraft(to: Option<string>, subject: Option<string>, body: Option<string>) returns (text: string)
    ensures text == Join(DraftLines(Fields(to, subject, body)), "\n")
  {
    var subj := subject;
    var content := body;
    if !Truthy(subj) {
      subj := Some(DefaultSubject);
    }
    if !Truthy(content) {
      content := Some(DefaultBody);
    }
    var header: seq<string> := [];
    if Truthy(to) {
      header := header + ["to: " + to.value];
    }
    header := header + ["subject: " + subj.value];
    header := header + ["body: " + content.value];
    assert header == DraftLines(Fields(to, subject, body));
    text := Join(header, "\n");
  }

  /** Since at most one field is ever parsed, a draft that names a recipient has the default subject and body. */
  lemma DraftWithRecipientIsDefault(query: string)
    requires Truthy(ParseSpec(Sanitize(query)).to)
    ensures !Truthy(ParseSpec(Sanitize(query)).subject) && !Truthy(ParseSpec(Sanitize(query)).body)
  {
    SanitizedSetsOneField(query);
  }

  // ---------------------------------------------------------------- SMTP configuration

  /** The `SMTP_TLS` values that switch TLS on (after lower-casing). */
  const TlsWords: set<string> := {"1", "true", "yes", "on"}

  datatype SmtpConfig = SmtpConfig(host: string, port: int, user: string, password: string,
                                   from: string, useTls: bool)

  /** `_smtp_conf`'s outcomes: the configuration, `int()` raising on the port, or the `RuntimeError`. */
  datatype ConfResult = ConfOk(conf: SmtpConfig) | PortNotInteger | IncompleteConfig

  /** `_smtp_conf`, with `int()` as `parseInt` (`None` where it raises `ValueError`). */
  function SmtpConf(env: map<string, string>, parseInt: string -> Option<int>): (r: ConfResult)
    ensures r == PortNotInteger <==> parseInt(Getenv(env, "SMTP_PORT", "587")).None?
    ensures r.ConfOk? <==>
              parseInt(Getenv(env, "SMTP_PORT", "587")).Some? && parseInt(Getenv(env, "SMTP_PORT", "587")).value != 0
              && Getenv(env, "SMTP_HOST", "") != [] && Getenv(env, "SMTP_USER", "") != []
              && Getenv(env, "SMTP_PASS", "") != [] && Getenv(env, "SMTP_FROM", Getenv(env, "SMTP_USER", "")) != []
    ensures r.ConfOk? ==>
              && r.conf.host == Getenv(env, "SMTP_HOST", "")
              && r.conf.port == parseInt(Getenv(env, "SMTP_PORT", "587")).value
              && r.conf.user == Getenv(env, "SMTP_USER", "")
              && r.conf.password == Getenv(env, "SMTP_PASS", "")
              && r.conf.from == (if "SMTP_FROM" in env then env["SMTP_FROM"] else r.conf.user)
              && (r.conf.useTls <==> LowerStr(Getenv(env, "SMTP_TLS", "true")) in TlsWords)
  {
    var host := Getenv(env, "SMTP_HOST", "");
    match parseInt(Getenv(env, "SMTP_PORT", "587"))
    case None => PortNotInteger
    case Some(port) =>
      var user := Getenv(env, "SMTP_USER", "");
      var password := Getenv(env, "SMTP_PASS", "");
      var from := Getenv(env, "SMTP_FROM", user);
      var useTls := LowerStr(Getenv(env, "SMTP_TLS", "true")) in TlsWords;
      if host == [] || port == 0 || user == [] || password == [] || from == [] then IncompleteConfig
      else ConfOk(SmtpConfig(host, port, user, password, from, useTls))
  }

  /** With no `SMTP_PORT` and no `SMTP_TLS`, a complete configuration uses port 587 with TLS on. */
  lemma SmtpDefaults(env: map<string, string>, parseInt: string -> Option<int>)
    requires parseInt("587") == Some(587)
    requires "SMTP_PORT" !in env && "SMTP_TLS" !in env
    requires SmtpConf(env, parseInt).ConfOk?
    ensures SmtpConf(env, parseInt).conf.port == 587 && SmtpConf(env, parseInt).conf.useTls
  {
    assert LowerStr("true") == "true";
  }

  /** The connection `_send_email_smtp_fn` opens: `SMTP_SSL`, or plain `SMTP` upgraded with STARTTLS or not. */
  datatype Transport = ImplicitSsl | PlainSmtp(startTls: bool)

  function TransportFor(c: SmtpConfig): (t: Transport)
    ensures t == ImplicitSsl <==> c.useTls && c.port == 465
    ensures t.PlainSmtp? ==> (t.startTls <==> c.useTls)
  {
    if c.useTls && c.port == 465 then ImplicitSsl else PlainSmtp(c.useTls)
  }

  // ---------------------------------------------------------------- send

  /** `validate_email`: the normalised address, or the validator's error text. */
  datatype Validation = Valid(normalized: string) | Invalid(reason: string)

  /**
   * The send tool's outcomes: the missing-field text, the `ValueError` for a bad address,
   * the port's `ValueError`, the configuration's `RuntimeError`, or the message handed to SMTP.
   */
  datatype SendOutcome =
    | MissingFormat(to: Option<string>, subject: Option<string>, hasBody: bool)
    | InvalidAddress(reason: string)
    | BadPort
    | ConfigMissing
    | Sent(from: string, recipient: string, title: string, content: string, transport: Transport)

  /** `_send_email_smtp_fn` once the fields are parsed. */
  function SendFields(f: Fields, validate: string -> Validation, env: map<string, string>,
                      parseInt: string -> Option<int>): (r: SendOutcome)
    ensures r.MissingFormat? <==> !Truthy(f.to) || !Truthy(f.subject) || !Truthy(f.body)
    ensures r.MissingFormat? ==> r == MissingFormat(f.to, f.subject, Truthy(f.body))
    ensures r.InvalidAddress? ==> validate(f.to.value) == Invalid(r.reason)
    ensures r.BadPort? || r.ConfigMissing? || r.Sent? ==> Truthy(f.to) && validate(f.to.value).Valid?
    ensures r.Sent? ==>
              && SmtpConf(env, parseInt).ConfOk?
              && r.recipient == validate(f.to.value).normalized
              && r.from == SmtpConf(env, parseInt).conf.from
              && Some(r.title) == f.subject && Some(r.content) == f.body
              && r.transport == TransportFor(SmtpConf(env, parseInt).conf)
  {
    if !Truthy(f.to) || !Truthy(f.subject) || !Truthy(f.body) then
      MissingFormat(f.to, f.subject, Truthy(f.body))
    else
      match validate(f.to.value)
      case Invalid(reason) => InvalidAddress(reason)
      case Valid(addr) =>
        match SmtpConf(env, parseInt)
        case PortNotInteger => BadPort
        case IncompleteConfig => ConfigMissing
        case ConfOk(c) => Sent(c.from, addr, f.subject.value, f.body.value, TransportFor(c))
  }

  /** A missing field is reported before the address is validated or the configuration read. */
  lemma MissingBeforeValidation(f: Fields, v1: string -> Validation, v2: string -> Validation,
                                e1: map<string, string>, e2: map<string, string>,
                                p1: string -> Option<int>, p2: string -> Option<int>)
    requires SendFields(f, v1, e1, p1).MissingFormat?
    ensures SendFields(f, v2, e2, p2) == SendFields(f, v1, e1, p1)
  {
  }

  /** `_send_email_smtp_fn` as written: the fields are parsed from the sanitised query. */
  function SendEmail(query: string, validate: string -> Validation, env: map<string, string>,
                     parseInt: string -> Option<int>): SendOutcome
  {
    SendFields(ParseSpec(Sanitize(query)), validate, env, parseInt)
  }

  /** As written, sending always stops at the missing-field text: the sanitised query is one line. */
  lemma SendAlwaysMissing(query: string, validate: string -> Validation, env: map<string, string>,
                          parseInt: string -> Option<int>)
    ensures SendEmail(query, validate, env, parseInt).MissingFormat?
  {
    SanitizedSetsOneField(query);
  }

  /** `None` or the string, as an f-string shows an optional value. */
  function Show(o: Option<string>): string {
    if o.Some? then o.value else "None"
  }

  /** The texts the send tool returns. */
  function SendMessage(r: SendOutcome): Option<string> {
    match r
    case MissingFormat(to, subject, hasBody) =>
      Some("❌ Format manquant. Fourni:\nto: " + Show(to) + "\nsubject: " + Show(subject)
           + "\nbody: " + (if hasBody then "True" else "False")
           + "\nExemple:\nto: contact@exemple.com\nsubject: Candidature stage\nbody: Bonjour, ...")
    case Sent(_, to, subject, _, _) => Some("✅ E-mail envoyé à " + to + " (sujet: " + subject + ").")
    case _ => None
  }

  // ---------------------------------------------------------------- corrected sanitising

  /** Sanitising each line on its own, keeping the line structure the parser needs. */
  function SanitizeLines(s: string): string {
    var lines := SplitLines(s);
    Join(seq(|lines|, i requires 0 <= i < |lines| => Sanitize(lines[i])), "\n")
  }

  /** The send tool with line-by-line sanitising. */
  function SendEmailCorrected(query: string, validate: string -> Validation, env: map<string, string>,
                              parseInt: string -> Option<int>): SendOutcome
  {
    SendFields(ParseSpec(SanitizeLines(query)), validate, env, parseInt)
  }

  /** A line that sanitising leaves unchanged has no line boundary and no whitespace at its ends. */
  lemma SanitizedLine(l: string)
    requires SanitizedForm(l)
    ensures Sanitize(l) == l && NoLineBreak(l) && Strip(l) == l
  {
    SanitizeFixes(l);
    PlainSpacesNoLineBreak(l);
    StripUnchanged(l);
  }

  /** Lines that are non-blank and already trimmed all survive the comprehension. */
  lemma {:induction false} NonBlankKeeps(ls: seq<string>)
    requires forall i :: 0 <= i < |ls| ==> ls[i] != [] && Strip(ls[i]) == ls[i]
    ensures NonBlank(ls) == ls
  {
    if ls != [] {
      var tail := ls[1..];
      assert forall i :: 0 <= i < |tail| ==> tail[i] == ls[i + 1];
      NonBlankKeeps(tail);
      assert NonBlank(ls) == [ls[0]] + tail;
      assert [ls[0]] + tail == ls;
    }
  }

  /** Line-by-line sanitising leaves lines that are already sanitised as they are. */
  lemma SanitizeLinesKeeps(ls: seq<string>)
    requires forall i :: 0 <= i < |ls| ==> ls[i] != [] && SanitizedForm(ls[i])
    ensures SanitizeLines(Join(ls, "\n")) == Join(ls, "\n")
  {
    forall i | 0 <= i < |ls| ensures ls[i] != [] && NoLineBreak(ls[i]) && Sanitize(ls[i]) == ls[i] {
      SanitizedLine(ls[i]);
    }
    SplitLinesJoin(ls);
    var lines := SplitLines(Join(ls, "\n"));
    assert seq(|lines|, i requires 0 <= i < |lines| => Sanitize(lines[i])) == ls;
  }

  /** Parsing lines that sanitising leaves unchanged, joined by newlines, runs the loop over exactly those lines. */
  lemma ParseCleanLines(ls: seq<string>)
    requires forall i :: 0 <= i < |ls| ==> ls[i] != [] && SanitizedForm(ls[i])
    ensures ParseSpec(SanitizeLines(Join(ls, "\n"))) == Finish(Scan(ls))
  {
    forall i | 0 <= i < |ls| ensures ls[i] != [] && NoLineBreak(ls[i]) && Strip(ls[i]) == ls[i] {
      SanitizedLine(ls[i]);
    }
    SanitizeLinesKeeps(ls);
    SplitLinesJoin(ls);
    NonBlankKeeps(ls);
  }

  /** After the first colon of `head + v` comes the space of the head, then `v`. */
  lemma AfterHead(head: string, v: string)
    requires |head| >= 2 && head[|head| - 2] == ':' && head[|head| - 1] == ' ' && ':' !in head[..|head| - 2]
    ensures ':' in head + v && SplitOnce(head + v, ':').1 == " " + v
  {
    var ln := head + v;
    var k := |head| - 2;
    assert ln[k] == ':' && ln[..k] == head[..k];
    SplitOnceAt(ln, ':', k);
    assert ln[k + 1..] == " " + v;
  }

  /** A trimmed, non-empty text after one space strips back to itself. */
  lemma StripAfterSpace(v: string)
    requires v != [] && !IsSpace(v[0]) && !IsSpace(v[|v| - 1])
    ensures Strip(" " + v) == v
  {
    var after := " " + v;
    assert after[..1] == " " && after[|after|..] == [];
    StripAt(after, 1, |after|);
    assert after[1..|after|] == v;
  }

  /** The value of `head + v` for a head ending in `": "` with no earlier colon, and a trimmed `v`. */
  lemma ValueAfterHead(head: string, v: string)
    requires |head| >= 2 && head[|head| - 2] == ':' && head[|head| - 1] == ' ' && ':' !in head[..|head| - 2]
    requires v != [] && !IsSpace(v[0]) && !IsSpace(v[|v| - 1])
    ensures ':' in head + v && ValueOf(head + v) == v
  {
    AfterHead(head, v);
    StripAfterSpace(v);
  }

  /** A line led by `to: ` is a `to:` line. */
  lemma ToHead(t: string)
    ensures KeyOf("to: " + t) == ToKey
  {
    assert LowerStr("to: " + t)[..3] == "to:";
  }

  /** A line led by `subject: ` is a `subject:` line. */
  lemma SubjectHead(s: string)
    ensures KeyOf("subject: " + s) == SubjectKey
  {
    var ls := LowerStr("subject: " + s);
    assert ls[..8] == "subject:" && ls[0] == 's';
  }

  /** A line led by `body: ` is a `body:` line. */
  lemma BodyHead(b: string)
    ensures KeyOf("body: " + b) == BodyKey
  {
    var lb := LowerStr("body: " + b);
    assert lb[..5] == "body:" && lb[0] == 'b';
  }

  /**
   * With line-by-line sanitising, the documented three-line format parses into all three
   * fields, for any values that are non-empty, do not start with whitespace, and whose
   * lines are already in sanitised form.
   */
  lemma CorrectedParsesAllFields(t: string, s: string, b: string)
    requires t != [] && s != [] && b != [] && !IsSpace(t[0]) && !IsSpace(s[0]) && !IsSpace(b[0])
    requires SanitizedForm("to: " + t) && SanitizedForm("subject: " + s) && SanitizedForm("body: " + b)
    ensures ParseSpec(SanitizeLines(Join(["to: " + t, "subject: " + s, "body: " + b], "\n")))
         == Fields(Some(t), Some(s), Some(b))
  {
    ToHead(t);
    SubjectHead(s);
    BodyHead(b);
    assert "to: "[2] == ':' && "to: "[..2] == "to";
    assert "subject: "[7] == ':' && "subject: "[..7] == "subject";
    assert "body: "[4] == ':' && "body: "[..4] == "body";
    HeadedLines("to: ", "subject: ", "body: ", t, s, b);
  }

  /** A head: ends in `": "` with no earlier colon. */
  predicate IsHead(h: string) {
    |h| >= 2 && h[|h| - 2] == ':' && h[|h| - 1] == ' ' && ':' !in h[..|h| - 2]
  }

  /** The value of a line made of a head and a non-empty value, in sanitised form, is that value. */
  lemma LineValue(h: string, v: string)
    requires IsHead(h) && v != [] && !IsSpace(v[0]) && SanitizedForm(h + v)
    ensures ':' in h + v && ValueOf(h + v) == v
  {
    assert (h + v)[|h + v| - 1] == v[|v| - 1];
    ValueAfterHead(h, v);
  }

  /** Three lines in sanitised form, joined by newlines and sanitised line by line, are parsed as those lines. */
  lemma CleanThree(l1: string, l2: string, l3: string)
    requires l1 != [] && l2 != [] && l3 != []
    requires SanitizedForm(l1) && SanitizedForm(l2) && SanitizedForm(l3)
    ensures ParseSpec(SanitizeLines(Join([l1, l2, l3], "\n"))) == Finish(Scan([l1, l2, l3]))
  {
    var ls := [l1, l2, l3];
    assert forall i :: 0 <= i < |ls| ==> ls[i] != [] && SanitizedForm(ls[i]);
    ParseCleanLines(ls);
  }

  /** `CorrectedParsesAllFields` for any three heads that introduce the three keys. */
  lemma HeadedLines(ht: string, hs: string, hb: string, t: string, s: string, b: string)
    requires IsHead(ht) && IsHead(hs) && IsHead(hb)
    requires KeyOf(ht + t) == ToKey && KeyOf(hs + s) == SubjectKey && KeyOf(hb + b) == BodyKey
    requires t != [] && s != [] && b != [] && !IsSpace(t[0]) && !IsSpace(s[0]) && !IsSpace(b[0])
    requires SanitizedForm(ht + t) && SanitizedForm(hs + s) && SanitizedForm(hb + b)
    ensures ParseSpec(SanitizeLines(Join([ht + t, hs + s, hb + b], "\n"))) == Fields(Some(t), Some(s), Some(b))
  {
    CleanThree(ht + t, hs + s, hb + b);
    LineValue(ht, t);
    LineValue(hs, s);
    LineValue(hb, b);
    ScanThree(ht + t, hs + s, hb + b);
  }

  /** A `to:`, a `subject:` and a `body:` line, in this order, set the three fields and buffer nothing. */
  lemma ScanThree(lt: string, lsub: string, lb: string)
    requires KeyOf(lt) == ToKey && KeyOf(lsub) == SubjectKey && KeyOf(lb) == BodyKey
    requires ':' in lt && ':' in lsub && ':' in lb
    ensures Finish(Scan([lt, lsub, lb])) == Fields(Some(ValueOf(lt)), Some(ValueOf(lsub)), Some(ValueOf(lb)))
  {
    var ls := [lt, lsub, lb];
    var s1 := ParseState(Some(ValueOf(lt)), None, None, false, []);
    var s2 := s1.(subject := Some(ValueOf(lsub)));
    var s3 := s2.(body := Some(ValueOf(lb)), inBody := true);
    assert [lt][..0] == [];
    assert Scan([lt]) == s1;
    assert ls[..2] == [lt, lsub] && [lt, lsub][..1] == [lt];
    assert Scan([lt, lsub]) == s2;
    assert Scan(ls) == s3;
  }

  /**
   * The same well-formed request: the tool as written refuses it with the missing-field
   * text, the corrected one gets past that check.
   */
  lemma CorrectedSendGetsPastFormat(t: string, s: string, b: string, validate: string -> Validation,
                                    env: map<string, string>, parseInt: string -> Option<int>)
    requires t != [] && s != [] && b != [] && !IsSpace(t[0]) && !IsSpace(s[0]) && !IsSpace(b[0])
    requires SanitizedForm("to: " + t) && SanitizedForm("subject: " + s) && SanitizedForm("body: " + b)
    ensures var query := Join(["to: " + t, "subject: " + s, "body: " + b], "\n");
      && SendEmail(query, validate, env, parseInt).MissingFormat?
      && !SendEmailCorrected(query, validate, env, parseInt).MissingFormat?
  {
    var query := Join(["to: " + t, "subject: " + s, "body: " + b], "\n");
    SendAlwaysMissing(query, validate, env, parseInt);
    CorrectedParsesAllFields(t, s, b);
  }
}
