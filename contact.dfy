// The contact form (my-app/src/CupForm.jsx): the message that onSubmit
// composes into a mailto: link, and the constraints the form's fields
// declare for the browser's validation.
//
// encodeURIComponent is a parameter `enc`; the email syntax check of
// <input type="email"> is a parameter `emailOk`.
module Contact {
  import opened Text

  /** The values of the form's six controls when it is submitted. */
  datatype ContactForm = ContactForm(
    name: string,
    company: string,
    email: string,
    phone: string,
    kind: string,      // the `type` select
    message: string)

  // ---------------------------------------------------------------------
  // onSubmit: recipient, subject, body, href
  // ---------------------------------------------------------------------

  const RecipientAddress: string := "dragondominik0103@gmail.com"

  /** The recipient: both arms of the `type === "rent"` test give the same address. */
  function Recipient(kind: string): (r: string)
    ensures r == RecipientAddress
  {
    if kind == "rent" then "dragondominik0103@gmail.com" else "dragondominik0103@gmail.com"
  }

  const SubjectPrefix: string := "Inquiry from "

  /** `Inquiry from ${name}` */
  function Subject(name: string): string {
    SubjectPrefix + name
  }

  /** The name a subject line was made from, if it has the subject's shape. */
  function SubjectName(subject: string): Option<string> {
    if |SubjectPrefix| <= |subject| && subject[..|SubjectPrefix|] == SubjectPrefix
    then Some(subject[|SubjectPrefix|..])
    else None
  }

  /** The subject line determines the name it was made from. */
  lemma SubjectRoundTrip(name: string)
    ensures SubjectName(Subject(name)) == Some(name)
    ensures Subject(name)[..|SubjectPrefix|] == SubjectPrefix
  {
    assert Subject(name)[|SubjectPrefix|..] == name;
  }

  /** One labelled line of the body: the label, the value verbatim, a line break. */
  function Line(caption: string, value: string): string {
    caption + value + "\n"
  }

  /**
   * The template literal of the body: it opens with a line break, has one
   * labelled line per single-line field in the order Name, Company, Email,
   * Phone, Type, then "Message:" on a line of its own followed by the
   * message, and closes with a line break and the four spaces of indentation
   * before the closing backtick.
   */
  function Body(f: ContactForm): string {
    "\n" + Line("Name: ", f.name) + Line("Company: ", f.company) + Line("Email: ", f.email)
      + Line("Phone: ", f.phone) + Line("Type: ", f.kind) + "Message:\n" + f.message + "\n    "
  }

  /** The href assigned to window.location.href. */
  function MailtoHref(recipient: string, subject: string, body: string, enc: string -> string): string {
    "mailto:" + recipient + "?subject=" + enc(subject) + "&body=" + enc(body)
  }

  /** The whole of onSubmit, from the form's values to the link. */
  function OnSubmit(f: ContactForm, enc: string -> string): string {
    MailtoHref(Recipient(f.kind), Subject(f.name), Body(f), enc)
  }

  // ---------------------------------------------------------------------
  // Reading a message back: the partners of Body and MailtoHref
  // ---------------------------------------------------------------------

  /** The rest of s after the prefix p, if s starts with p. */
  function StripPrefix(p: string, s: string): (r: Option<string>)
    ensures r.Some? ==> s == p + r.value
  {
    if |p| <= |s| && s[..|p|] == p then Some(s[|p|..]) else None
  }

  /** s without the suffix p, if s ends with p. */
  function StripSuffix(s: string, p: string): (r: Option<string>)
    ensures r.Some? ==> s == r.value + p
  {
    if |p| <= |s| && s[|s| - |p|..] == p then Some(s[..|s| - |p|]) else None
  }

  /** The text before the first occurrence of `sep` and the text after it. */
  function SplitAt(s: string, sep: char): (r: Option<(string, string)>)
    ensures r.Some? ==> s == r.value.0 + [sep] + r.value.1 && sep !in r.value.0
    ensures r.None? ==> sep !in s
  {
    if s == [] then None
    else if s[0] == sep then Some(([], s[1..]))
    else match SplitAt(s[1..], sep)
      case None => None
      case Some(parts) => Some(([s[0]] + parts.0, parts.1))
  }

  lemma {:induction false} SplitAtFirst(a: string, sep: char, b: string)
    requires sep !in a
    ensures SplitAt(a + [sep] + b, sep) == Some((a, b))
  {
    if a != [] {
      assert (a + [sep] + b)[0] == a[0] != sep;
      assert (a + [sep] + b)[1..] == a[1..] + [sep] + b;
      SplitAtFirst(a[1..], sep, b);
      assert [a[0]] + a[1..] == a;
    }
  }

  lemma StripPrefixOf(p: string, s: string)
    ensures StripPrefix(p, p + s) == Some(s)
  {
    assert (p + s)[..|p|] == p;
    assert (p + s)[|p|..] == s;
  }

  lemma StripSuffixOf(s: string, p: string)
    ensures StripSuffix(s + p, p) == Some(s)
  {
    assert (s + p)[|s|..] == p;
    assert (s + p)[..|s|] == s;
  }

  /** One labelled line at the front of s: its value and the text after it. */
  function ReadLine(caption: string, s: string): Option<(string, string)> {
    var rest :- StripPrefix(caption, s);
    SplitAt(rest, '\n')
  }

  lemma ReadLineOf(caption: string, value: string, rest: string)
    requires '\n' !in value
    ensures ReadLine(caption, Line(caption, value) + rest) == Some((value, rest))
  {
    assert Line(caption, value) + rest == caption + (value + "\n" + rest);
    StripPrefixOf(caption, value + "\n" + rest);
    SplitAtFirst(value, '\n', rest);
  }

  /** Recovers the form's values from a body. */
  function ParseBody(body: string): Option<ContactForm> {
    var s0 :- StripPrefix("\n", body);
    var name :- ReadLine("Name: ", s0);
    var company :- ReadLine("Company: ", name.1);
    var email :- ReadLine("Email: ", company.1);
    var phone :- ReadLine("Phone: ", email.1);
    var kind :- ReadLine("Type: ", phone.1);
    var s1 :- StripPrefix("Message:\n", kind.1);
    var message :- StripSuffix(s1, "\n    ");
    Some(ContactForm(name.0, company.0, email.0, phone.0, kind.0, message))
  }

  /** The single-line fields hold no line breaks; the browser strips them from text and email inputs. */
  predicate SingleLineFields(f: ContactForm) {
    && '\n' !in f.name && '\n' !in f.company && '\n' !in f.email
    && '\n' !in f.phone && '\n' !in f.kind
  }

  /** The body written as nested lines, each labelled line followed by the rest. */
  lemma BodyShape(f: ContactForm)
    ensures Body(f) == "\n" + (Line("Name: ", f.name) + (Line("Company: ", f.company) + (Line("Email: ", f.email)
      + (Line("Phone: ", f.phone) + (Line("Type: ", f.kind) + ("Message:\n" + f.message + "\n    "))))))
  {
  }

  /** The body lists every field verbatim, in order, so it can be read back. */
  lemma {:induction false} BodyRoundTrip(f: ContactForm)
    requires SingleLineFields(f)
    ensures ParseBody(Body(f)) == Some(f)
  {
    var tail := "Message:\n" + f.message + "\n    ";
    var t5 := Line("Type: ", f.kind) + tail;
    var t4 := Line("Phone: ", f.phone) + t5;
    var t3 := Line("Email: ", f.email) + t4;
    var t2 := Line("Company: ", f.company) + t3;
    var t1 := Line("Name: ", f.name) + t2;
    BodyShape(f);
    StripPrefixOf("\n", t1);
    ReadLineOf("Name: ", f.name, t2);
    ReadLineOf("Company: ", f.company, t3);
    ReadLineOf("Email: ", f.email, t4);
    ReadLineOf("Phone: ", f.phone, t5);
    ReadLineOf("Type: ", f.kind, tail);
    assert tail == "Message:\n" + (f.message + "\n    ");
    StripPrefixOf("Message:\n", f.message + "\n    ");
    StripSuffixOf(f.message, "\n    ");
  }

  /** encodeURIComponent escapes '&', so an encoded value never contains one. */
  ghost predicate EscapesAmpersand(enc: string -> string) {
    forall s :: '&' !in enc(s)
  }

  /** Splits a mailto: link into recipient, encoded subject and encoded body. */
  function ParseMailto(href: string): Option<(string, string, string)> {
    var s0 :- StripPrefix("mailto:", href);
    var addr :- SplitAt(s0, '?');
    var s1 :- StripPrefix("subject=", addr.1);
    var subj :- SplitAt(s1, '&');
    var body :- StripPrefix("body=", subj.1);
    Some((addr.0, subj.0, body))
  }

  /** The link carries the recipient and the encoded subject and body, each recoverable. */
  lemma {:induction false} MailtoRoundTrip(recipient: string, subject: string, body: string, enc: string -> string)
    requires '?' !in recipient
    requires EscapesAmpersand(enc)
    ensures ParseMailto(MailtoHref(recipient, subject, body, enc)) == Some((recipient, enc(subject), enc(body)))
  {
    var rest2 := "body=" + enc(body);
    var rest1 := "subject=" + (enc(subject) + ['&'] + rest2);
    assert MailtoHref(recipient, subject, body, enc) == "mailto:" + (recipient + ['?'] + rest1);
    StripPrefixOf("mailto:", recipient + ['?'] + rest1);
    SplitAtFirst(recipient, '?', rest1);
    StripPrefixOf("subject=", enc(subject) + ['&'] + rest2);
    SplitAtFirst(enc(subject), '&', rest2);
    StripPrefixOf("body=", enc(body));
  }

  /**
   * With a decoder that undoes the encoding, the link a submission produces
   * gives back the fixed recipient and every value of the form.
   */
  lemma SubmissionRecoverable(f: ContactForm, enc: string -> string, dec: string -> string)
    requires SingleLineFields(f)
    requires EscapesAmpersand(enc)
    requires forall s :: dec(enc(s)) == s
    ensures ParseMailto(OnSubmit(f, enc)).Some?
    ensures var parts := ParseMailto(OnSubmit(f, enc)).value;
            parts.0 == RecipientAddress
            && SubjectName(dec(parts.1)) == Some(f.name)
            && ParseBody(dec(parts.2)) == Some(f)
  {
    assert '?' !in RecipientAddress;
    MailtoRoundTrip(RecipientAddress, Subject(f.name), Body(f), enc);
    SubjectRoundTrip(f.name);
    BodyRoundTrip(f);
  }

  // ---------------------------------------------------------------------
  // The phone pattern ^\+?[0-9\s\-()]{7,20}$
  // ---------------------------------------------------------------------

  /** JavaScript's \s: the white-space and line-terminator code points. */
  predicate IsJsSpace(c: char) {
    var n := c as int;
    n == 0x09 || n == 0x0A || n == 0x0B || n == 0x0C || n == 0x0D || n == 0x20
    || n == 0xA0 || n == 0x1680 || (0x2000 <= n <= 0x200A) || n == 0x2028 || n == 0x2029
    || n == 0x202F || n == 0x205F || n == 0x3000 || n == 0xFEFF
  }

  /** A member of the class [0-9\s\-()]. */
  predicate IsPhoneChar(c: char) {
    ('0' <= c <= '9') || IsJsSpace(c) || c == '-' || c == '(' || c == ')'
  }

  const PhoneMinRun: nat := 7
  const PhoneMaxRun: nat := 20

  /**
   * The backtracking semantics of `[class]{lo,hi}$`: the rest of the input
   * is consumed by between lo and hi class characters and then ends.
   */
  function RepeatToEnd(t: string, lo: nat, hi: nat): bool
    decreases |t|
  {
    (lo == 0 && t == [])
    || (hi > 0 && t != [] && IsPhoneChar(t[0])
        && RepeatToEnd(t[1..], if lo > 0 then lo - 1 else 0, hi - 1))
  }

  /** `^\+?[class]{7,20}$`: try the optional '+' first, then without it. */
  function MatchPhone(s: string): bool {
    (s != [] && s[0] == '+' && RepeatToEnd(s[1..], PhoneMinRun, PhoneMaxRun))
    || RepeatToEnd(s, PhoneMinRun, PhoneMaxRun)
  }

  predicate AllPhoneChars(t: string) {
    forall i :: 0 <= i < |t| ==> IsPhoneChar(t[i])
  }

  /** What the pattern says in words: an optional '+', then 7 to 20 characters from the class. */
  ghost predicate PhoneShape(s: string) {
    exists digits :: (s == digits || s == "+" + digits)
      && PhoneMinRun <= |digits| <= PhoneMaxRun && AllPhoneChars(digits)
  }

  lemma {:induction false} RepeatToEndMeaning(t: string, lo: nat, hi: nat)
    ensures RepeatToEnd(t, lo, hi) <==> lo <= |t| <= hi && AllPhoneChars(t)
    decreases |t|
  {
    if t != [] {
      if hi > 0 {
        RepeatToEndMeaning(t[1..], if lo > 0 then lo - 1 else 0, hi - 1);
      }
      assert AllPhoneChars(t) <==> IsPhoneChar(t[0]) && AllPhoneChars(t[1..]) by {
        assert forall i :: 0 < i < |t| ==> t[i] == t[1..][i - 1];
      }
    }
  }

  /** The matcher accepts exactly the strings of the described shape. */
  lemma PhoneMatchMeaning(s: string)
    ensures MatchPhone(s) <==> PhoneShape(s)
  {
    RepeatToEndMeaning(s, PhoneMinRun, PhoneMaxRun);
    if s != [] {
      RepeatToEndMeaning(s[1..], PhoneMinRun, PhoneMaxRun);
    }
    if MatchPhone(s) {
      if s != [] && s[0] == '+' && RepeatToEnd(s[1..], PhoneMinRun, PhoneMaxRun) {
        assert s == "+" + s[1..];
      }
    }
    if PhoneShape(s) {
      var digits :| (s == digits || s == "+" + digits)
        && PhoneMinRun <= |digits| <= PhoneMaxRun && AllPhoneChars(digits);
      if s != digits {
        assert s[1..] == digits;
      }
    }
  }

  // ---------------------------------------------------------------------
  // Field constraints
  // ---------------------------------------------------------------------

  datatype Field = Name | Company | Email | Phone | Message | Type

  /** The `required` attributes: all but company and the select. */
  function Required(field: Field): bool {
    match field
    case Name => true
    case Company => false
    case Email => true
    case Phone => true
    case Message => true
    case Type => false
  }

  /** The `maxLength` attributes; the textarea and the select have none. */
  function MaxLength(field: Field): Option<nat> {
    match field
    case Name => Some(100)
    case Company => Some(100)
    case Email => Some(100)
    case Phone => Some(20)
    case Message => None
    case Type => None
  }

  /** The values of the select's options. */
  const TypeOptions: seq<string> := ["sales", "factory", "other"]

  function ValueOf(f: ContactForm, field: Field): string {
    match field
    case Name => f.name
    case Company => f.company
    case Email => f.email
    case Phone => f.phone
    case Message => f.message
    case Type => f.kind
  }

  /**
   * One control passes the browser's checks: present when required, within
   * its length cap, matching its pattern or type when non-empty, and for the
   * select one of its options. The phone pattern is applied in its escaped
   * spelling, the one that compiles under the `v` flag; see
   * AsWrittenPatternIgnored for the spelling in the attribute.
   */
  predicate FieldOk(f: ContactForm, field: Field, emailOk: string -> bool) {
    var v := ValueOf(f, field);
    && (Required(field) ==> v != "")
    && (MaxLength(field).Some? ==> |v| <= MaxLength(field).value)
    && (field == Phone ==> PatternAllows(PhoneClassEscaped, v))
    && (field == Email && v != "" ==> emailOk(v))
    && (field == Type ==> v in TypeOptions)
  }

  /** The form may be submitted: every control passes. */
  predicate Submittable(f: ContactForm, emailOk: string -> bool) {
    && FieldOk(f, Name, emailOk) && FieldOk(f, Company, emailOk) && FieldOk(f, Email, emailOk)
    && FieldOk(f, Phone, emailOk) && FieldOk(f, Message, emailOk) && FieldOk(f, Type, emailOk)
  }

  /**
   * What a submittable form guarantees: name, email, phone and message are
   * non-empty, company may be empty, the caps hold, the phone has the
   * pattern's shape, and the type is one of the options, never "rent".
   */
  lemma SubmittableMeaning(f: ContactForm, emailOk: string -> bool)
    requires Submittable(f, emailOk)
    ensures f.name != "" && f.email != "" && f.phone != "" && f.message != ""
    ensures |f.name| <= 100 && |f.company| <= 100 && |f.email| <= 100 && |f.phone| <= 20
    ensures PhoneShape(f.phone) && emailOk(f.email)
    ensures f.kind in TypeOptions && f.kind != "rent"
  {
    EscapedPatternEnforced(f.phone);
  }

  /** An empty company does not stop a submission. */
  lemma CompanyOptional(f: ContactForm, emailOk: string -> bool)
    requires Submittable(f, emailOk)
    ensures Submittable(f.(company := ""), emailOk)
  {
  }

  /**
   * Together the length cap and the pattern admit at most 19 class
   * characters after a leading '+', and 7 to 20 without one.
   */
  lemma PhoneFieldBounds(f: ContactForm, emailOk: string -> bool)
    requires FieldOk(f, Phone, emailOk)
    ensures f.phone[0] == '+' ==> 7 <= |f.phone| - 1 <= 19 && AllPhoneChars(f.phone[1..])
    ensures f.phone[0] != '+' ==> 7 <= |f.phone| <= 20 && AllPhoneChars(f.phone)
  {
    EscapedPatternEnforced(f.phone);
    RepeatToEndMeaning(f.phone, PhoneMinRun, PhoneMaxRun);
    RepeatToEndMeaning(f.phone[1..], PhoneMinRun, PhoneMaxRun);
  }

  // ---------------------------------------------------------------------
  // How the browser compiles the pattern attribute
  // ---------------------------------------------------------------------

  /** The class body as the attribute spells it, and with its parentheses escaped. */
  const PhoneClassAsWritten: string := "0-9\\s\\-()"
  const PhoneClassEscaped: string := "0-9\\s\\-\\(\\)"

  /** Characters that must be escaped inside a class under the `v` flag. */
  predicate IsClassSyntaxChar(c: char) {
    c == '(' || c == ')' || c == '[' || c == ']' || c == '{' || c == '}'
    || c == '/' || c == '-' || c == '\\' || c == '|'
  }

  /**
   * Whether a class body made of escapes, ranges and plain characters parses
   * under the `v` flag: a plain character, or an end of a range, may not be a
   * class syntax character.
   */
  function ClassBodyParsesV(body: string): bool
    decreases |body|
  {
    if body == [] then true
    else if body[0] == '\\' then |body| >= 2 && ClassBodyParsesV(body[2..])
    else if |body| >= 3 && body[1] == '-' then
      !IsClassSyntaxChar(body[0]) && !IsClassSyntaxChar(body[2]) && ClassBodyParsesV(body[3..])
    else !IsClassSyntaxChar(body[0]) && ClassBodyParsesV(body[1..])
  }

  /**
   * The pattern constraint as browsers apply it: a pattern that does not
   * compile is ignored, so any value passes it.
   */
  function PatternAllows(classBody: string, value: string): bool {
    !ClassBodyParsesV(classBody) || value == "" || MatchPhone(value)
  }

  /** As written, the class does not parse under `v`, so the pattern lets anything through. */
  lemma AsWrittenPatternIgnored()
    ensures !ClassBodyParsesV(PhoneClassAsWritten)
    ensures PatternAllows(PhoneClassAsWritten, "call me") && !PhoneShape("call me")
  {
    AsWrittenClassRejected();
    NotAPhone();
  }

  lemma AsWrittenClassRejected()
    ensures !ClassBodyParsesV(PhoneClassAsWritten)
  {
    var b := PhoneClassAsWritten;
    assert !ClassBodyParsesV("()");
    assert b[3..][2..][2..] == "()";
    assert !ClassBodyParsesV(b[3..][2..]);
    assert b[3..][2..] == "\\-()";
    assert !ClassBodyParsesV(b[3..]);
    assert b[3..] == "\\s\\-()";
  }

  lemma NotAPhone()
    ensures !PhoneShape("call me")
  {
    var s := "call me";
    assert !IsPhoneChar(s[0]);
    assert !RepeatToEnd(s, PhoneMinRun, PhoneMaxRun);
    PhoneMatchMeaning(s);
  }

  /** With the parentheses escaped the class parses and the pattern means its shape. */
  lemma EscapedPatternEnforced(value: string)
    ensures ClassBodyParsesV(PhoneClassEscaped)
    ensures PatternAllows(PhoneClassEscaped, value) <==> value == "" || PhoneShape(value)
  {
    var b := PhoneClassEscaped;
    assert b[3..] == "\\s\\-\\(\\)";
    assert b[3..][2..] == "\\-\\(\\)";
    assert b[3..][2..][2..] == "\\(\\)";
    assert b[3..][2..][2..][2..] == "\\)";
    assert ClassBodyParsesV("\\)");
    PhoneMatchMeaning(value);
  }
}
