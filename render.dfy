/**
 * The statement renderers of rust/src/lib.rs.
 *
 * Currency formatting is a collaborator outside the model: a `Style` carries
 * it as an arbitrary function from cents to text, `fmt` for
 * `usd(cents).format()` in the plain-text statement and `display` for the
 * `Display` form of `usd(cents)` in the markup statement. Seat counts and
 * credit totals are written with `Decimal.NatToString`, as `{}` writes a u64.
 */
module Render {
  import opened Types
  import opened StatementData
  import opened Decimal

  /** Which statement is rendered, with its currency formatter. */
  datatype Style = PlainText(fmt: nat -> string) | Markup(display: nat -> string)

  /** The style's rendering of an amount of cents. */
  function Cost(style: Style, cents: nat): string
  {
    match style
    case PlainText(fmt) => fmt(cents)
    case Markup(display) => display(cents)
  }

  function Header(style: Style, customer: string): string
  {
    match style
    case PlainText(_) => "Statement for " + customer + "\n"
    case Markup(_) => ("<h1>Statement for " + customer + "</h1>\n") + "<table>\n" + "<tr><th>play</th><th>seats</th><th>cost</th></tr>"
  }

  /** The text of one performance's line: title, seats and cost. */
  function Row(style: Style, name: string, seats: nat, cents: nat): string
  {
    match style
    case PlainText(fmt) => " " + name + ": " + fmt(cents) + " (" + NatToString(seats) + " seats)\n"
    case Markup(display) =>
      (" <tr><td>" + name + "</td><td>" + NatToString(seats) + "</td>") + ("<td>" + display(cents) + "</td></tr>\n")
  }

  function Footer(style: Style, total: nat, credits: nat): string
  {
    match style
    case PlainText(fmt) =>
      ("Amount owed is " + fmt(total) + "\n") + ("You earned " + NatToString(credits) + " credits\n")
    case Markup(display) =>
      "</table>\n" + ("<p>Amount owed is <em>" + display(total) + "</em></p>\n") +
      ("<p>You earned <em>" + NatToString(credits) + "</em> credits</p>\n")
  }

  /** A performance's line; the play lookup and then the pricing may abort it. */
  function Line(style: Style, e: EnrichedPerformance): (r: Result<string>)
    ensures r.Success? <==> Amount(e).Success?
    ensures r.Failure? ==> r.error == Amount(e).error
    ensures r.Success? ==> e.perf.playId in e.plays && r.value == Row(style, e.plays[e.perf.playId].name, Audience(e), Amount(e).value)
  {
    var play :- PlayOf(e);
    var amount :- Amount(e);
    Success(Row(style, play.name, Audience(e), amount))
  }

  /** The lines of all performances in order; the first line that aborts decides the error. */
  function Body(style: Style, s: seq<EnrichedPerformance>): Result<string>
  {
    if s == [] then Success("")
    else
      var init :- Body(style, s[..|s| - 1]);
      var last :- Line(style, s[|s| - 1]);
      Success(init + last)
  }

  /** A statement: header, the lines of the performances in order, footer with both totals. */
  function Statement(style: Style, data: StatementData): Result<string>
  {
    var body :- Body(style, data.performances);
    var total :- Total(data.performances, Amount);
    var credits :- Total(data.performances, VolumeCredits);
    Success(Header(style, data.customer) + body + Footer(style, total, credits))
  }

  /** One step of a rendering loop: performance `i` either aborts the statement or adds its line. */
  lemma BodyStep(style: Style, s: seq<EnrichedPerformance>, i: nat)
    requires i < |s| && Body(style, s[..i]).Success?
    ensures Amount(s[i]).Failure? ==> Body(style, s) == Failure(Amount(s[i]).error)
    ensures Amount(s[i]).Success? ==> Body(style, s[..i + 1]) == Success(Body(style, s[..i]).value + Line(style, s[i]).value)
  {
    assert s[..i + 1][..i] == s[..i];
    if Amount(s[i]).Failure? {
      BodyFirstFailure(style, s, i);
    }
  }

  /** Every prefix of a body that succeeds succeeds. */
  lemma {:induction false} BodyPrefix(style: Style, s: seq<EnrichedPerformance>, k: nat)
    requires k <= |s| && Body(style, s).Success?
    ensures Body(style, s[..k]).Success?
    decreases |s|
  {
    if k < |s| {
      assert s[..|s| - 1][..k] == s[..k];
      BodyPrefix(style, s[..|s| - 1], k);
    } else {
      assert s[..k] == s;
    }
  }

  /** The body aborts with the error of the first performance that cannot be priced. */
  lemma {:induction false} BodyFirstFailure(style: Style, s: seq<EnrichedPerformance>, k: nat)
    requires k < |s| && Amount(s[k]).Failure?
    requires Body(style, s[..k]).Success?
    ensures Body(style, s) == Failure(Amount(s[k]).error)
    decreases |s|
  {
    if k < |s| - 1 {
      assert s[..|s| - 1][..k] == s[..k];
      BodyFirstFailure(style, s[..|s| - 1], k);
    } else {
      assert s[..|s| - 1] == s[..k];
    }
  }

  /** The body succeeds exactly when every performance can be priced. */
  lemma {:induction false} BodySucceeds(style: Style, s: seq<EnrichedPerformance>)
    ensures Body(style, s).Success? <==> AllSucceed(s, Amount)
    decreases |s|
  {
    if s != [] {
      BodySucceeds(style, s[..|s| - 1]);
      AllSucceedSplitLast(s, Amount);
    }
  }

  /** Bodies concatenate over concatenated performance lists. */
  lemma {:induction false} BodyAppend(style: Style, s: seq<EnrichedPerformance>, t: seq<EnrichedPerformance>)
    requires Body(style, s).Success? && Body(style, t).Success?
    ensures Body(style, s + t) == Success(Body(style, s).value + Body(style, t).value)
    decreases |t|
  {
    if t == [] {
      assert s + t == s;
      assert Body(style, s).value + "" == Body(style, s).value;
    } else {
      var n := |t| - 1;
      assert (s + t)[..|s + t| - 1] == s + t[..n];
      assert (s + t)[|s + t| - 1] == t[n];
      BodyPrefix(style, t, n);
      BodyAppend(style, s, t[..n]);
      AppendAssoc(Body(style, s).value, Body(style, t[..n]).value, Line(style, t[n]).value);
    }
  }

  /**
   * Where the line of performance `k` sits: after the lines of the
   * performances before it and before the lines of those after it.
   */
  lemma BodyLineAt(style: Style, s: seq<EnrichedPerformance>, k: nat)
    requires k < |s| && AllSucceed(s, Amount)
    ensures Body(style, s[..k]).Success? && Body(style, s[k + 1..]).Success? &&
            Body(style, s) == Success(Body(style, s[..k]).value + Line(style, s[k]).value + Body(style, s[k + 1..]).value)
  {
    var upto, after := s[..k + 1], s[k + 1..];
    BodySucceeds(style, s);
    BodyPrefix(style, s, k);
    BodyStep(style, s, k);
    AllSucceedSlice(s, k + 1, |s|, Amount);
    assert s[k + 1..|s|] == after;
    BodySucceeds(style, after);
    BodyAppend(style, upto, after);
    SplitJoin(s, k + 1);
  }

  /** Solver aid: a split sequence joins back to itself; kept apart so the callers' contexts stay small. */
  lemma SplitJoin<T>(s: seq<T>, k: nat)
    requires k <= |s|
    ensures s[..k] + s[k..] == s
  {
  }

  /** Solver aid: string concatenation regrouped, used where a loop appends a line in two parts. */
  lemma AppendAssoc(a: string, b: string, c: string)
    ensures a + b + c == a + (b + c)
  {
  }

  /** `render_plain_statement`. */
  method RenderPlainStatement(data: StatementData, fmt: nat -> string) returns (r: Result<string>)
    ensures r == Statement(PlainText(fmt), data)
  {
    ghost var style := PlainText(fmt);
    var ps := data.performances;
    var result := "Statement for " + data.customer + "\n";
    for i := 0 to |ps|
      invariant Body(style, ps[..i]).Success?
      invariant result == Header(style, data.customer) + Body(style, ps[..i]).value
    {
      var perf := ps[i];
      BodyStep(style, ps, i);
      var play :- PlayOf(perf);
      var amount :- Amount(perf);
      var line := " " + play.name + ": " + fmt(amount) + " (" + NatToString(Audience(perf)) + " seats)\n";
      assert line == Line(style, perf).value;
      AppendAssoc(Header(style, data.customer), Body(style, ps[..i]).value, line);
      result := result + line;
    }
    assert ps[..|ps|] == ps;
    ghost var lines := result;
    var total :- TotalAmount(data);
    var owed := "Amount owed is " + fmt(total) + "\n";
    result := result + owed;
    var credits :- TotalVolumeCredits(data);
    var earned := "You earned " + NatToString(credits) + " credits\n";
    result := result + earned;
    AppendAssoc(lines, owed, earned);
    assert owed + earned == Footer(style, total, credits);
    return Success(result);
  }

  /** `render_html_statement`. */
  method RenderHtmlStatement(data: StatementData, display: nat -> string) returns (r: Result<string>)
    ensures r == Statement(Markup(display), data)
  {
    ghost var style := Markup(display);
    var ps := data.performances;
    var result := ("<h1>Statement for " + data.customer + "</h1>\n");
    result := result + "<table>\n";
    result := result + "<tr><th>play</th><th>seats</th><th>cost</th></tr>";
    for i := 0 to |ps|
      invariant Body(style, ps[..i]).Success?
      invariant result == Header(style, data.customer) + Body(style, ps[..i]).value
    {
      var perf := ps[i];
      BodyStep(style, ps, i);
      var play :- PlayOf(perf);
      var amount :- Amount(perf);
      var cells := " <tr><td>" + play.name + "</td><td>" + NatToString(Audience(perf)) + "</td>";
      var cost := "<td>" + display(amount) + "</td></tr>\n";
      assert cells + cost == Line(style, perf).value;
      AppendAssoc(result, cells, cost);
      AppendAssoc(Header(style, data.customer), Body(style, ps[..i]).value, cells + cost);
      result := result + cells;
      result := result + cost;
    }
    assert ps[..|ps|] == ps;
    ghost var lines := result;
    result := result + "</table>\n";
    var total :- TotalAmount(data);
    var owed := "<p>Amount owed is <em>" + display(total) + "</em></p>\n";
    result := result + owed;
    var credits :- TotalVolumeCredits(data);
    var earned := "<p>You earned <em>" + NatToString(credits) + "</em> credits</p>\n";
    result := result + earned;
    AppendAssoc(lines, "</table>\n", owed);
    AppendAssoc(lines, "</table>\n" + owed, earned);
    assert "</table>\n" + owed + earned == Footer(style, total, credits);
    return Success(result);
  }

  // ------------------------------------------------------------ properties

  /** A statement exists exactly when every performance can be priced and credited. */
  lemma StatementSucceeds(style: Style, data: StatementData)
    ensures Statement(style, data).Success? <==> Billable(data.performances)
  {
    BodySucceeds(style, data.performances);
    TotalIsSum(data.performances, Amount);
    TotalIsSum(data.performances, VolumeCredits);
  }

  /** The first performance that cannot be priced (missing play or unknown type) decides the error. */
  lemma StatementPricingError(style: Style, data: StatementData, k: nat)
    requires k < |data.performances| && Amount(data.performances[k]).Failure?
    requires forall j :: 0 <= j < k ==> Amount(data.performances[j]).Success?
    ensures Statement(style, data) == Failure(Amount(data.performances[k]).error)
  {
    var ps := data.performances;
    assert AllSucceed(ps[..k], Amount) by {
      forall j | 0 <= j < k ensures Amount(ps[..k][j]).Success? { assert ps[..k][j] == ps[j]; }
    }
    BodySucceeds(style, ps[..k]);
    BodyFirstFailure(style, ps, k);
  }

  /** With every performance priced, the first one with fewer than 30 seats aborts the credit total. */
  lemma StatementCreditError(style: Style, data: StatementData, k: nat)
    requires AllSucceed(data.performances, Amount)
    requires k < |data.performances| && Audience(data.performances[k]) < 30
    requires forall j :: 0 <= j < k ==> Audience(data.performances[j]) >= 30
    ensures Statement(style, data) == Failure(CreditUnderflow(Audience(data.performances[k])))
  {
    var ps := data.performances;
    BodySucceeds(style, ps);
    TotalIsSum(ps, Amount);
    assert forall j :: 0 <= j < k ==> VolumeCredits(ps[j]).Success? by {
      forall j | 0 <= j < k ensures VolumeCredits(ps[j]).Success? { assert Amount(ps[j]).Success?; }
    }
    CollectFirstFailure(ps, k, VolumeCredits);
  }

  /**
   * The layout of a statement: it opens with the header, the line of each
   * performance `k` follows the lines of the performances before it and
   * precedes those after it, and it closes with the footer of both totals.
   */
  lemma StatementLayout(style: Style, data: StatementData, k: nat)
    requires Billable(data.performances) && k < |data.performances|
    ensures Body(style, data.performances[..k]).Success? && Body(style, data.performances[k + 1..]).Success?
    ensures Total(data.performances, Amount).Success? && Total(data.performances, VolumeCredits).Success?
    ensures Statement(style, data) == Success(
              Header(style, data.customer) +
              Body(style, data.performances[..k]).value +
              Line(style, data.performances[k]).value +
              Body(style, data.performances[k + 1..]).value +
              Footer(style, Total(data.performances, Amount).value, Total(data.performances, VolumeCredits).value))
  {
    var ps := data.performances;
    BodyLineAt(style, ps, k);
    TotalIsSum(ps, Amount);
    TotalIsSum(ps, VolumeCredits);
    var h, b1, l, b2 := Header(style, data.customer), Body(style, ps[..k]).value, Line(style, ps[k]).value, Body(style, ps[k + 1..]).value;
    AppendAssoc(h, b1 + l, b2);
    AppendAssoc(h, b1, l);
  }

  /** A statement for no performances is the header and a footer owing nothing and earning nothing. */
  lemma StatementEmpty(style: Style, customer: string)
    ensures Statement(style, StatementData(customer, [])) == Success(Header(style, customer) + Footer(style, 0, 0))
  {
    assert Header(style, customer) + "" == Header(style, customer);
    TotalIsSum([], Amount);
    TotalIsSum([], VolumeCredits);
  }

  /** The number of line breaks in `s`. */
  function NewlineCount(s: string): nat
  {
    multiset(s)['\n']
  }

  predicate NoNewline(s: string)
  {
    '\n' !in s
  }

  lemma NoNewlineCount(s: string)
    requires NoNewline(s)
    ensures NewlineCount(s) == 0
  {
  }

  lemma CountAppend(a: string, b: string)
    ensures NewlineCount(a + b) == NewlineCount(a) + NewlineCount(b)
  {
    assert multiset(a + b) == multiset(a) + multiset(b);
  }

  lemma DigitsNoNewline(n: nat)
    ensures NoNewline(NatToString(n))
  {
  }

  /** A break-free text closed by one line break holds exactly one. */
  lemma ClosedLine(front: string)
    requires NoNewline(front)
    ensures NewlineCount(front + "\n") == 1
  {
    NoNewlineCount(front);
    CountAppend(front, "\n");
  }

  /** The fixed pieces of a plain-text line. */
  lemma PlainRowPieces()
    ensures NewlineCount(" ") == 0 && NewlineCount(": ") == 0 && NewlineCount(" (") == 0
    ensures NewlineCount(" seats)\n") == 1
  {
    assert NoNewline(" ") && NoNewline(": ") && NoNewline(" (");
    assert " seats)\n" == " seats)" + "\n";
    assert NoNewline(" seats)");
    ClosedLine(" seats)");
  }

  lemma PlainRowNewlines(name: string, seatsText: string, cost: string)
    requires NoNewline(name) && NoNewline(seatsText) && NoNewline(cost)
    ensures NewlineCount(" " + name + ": " + cost + " (" + seatsText + " seats)\n") == 1
  {
    PlainRowPieces();
    NoNewlineCount(name);
    NoNewlineCount(seatsText);
    NoNewlineCount(cost);
    CountAppend(" ", name);
    CountAppend(" " + name, ": ");
    CountAppend(" " + name + ": ", cost);
    CountAppend(" " + name + ": " + cost, " (");
    CountAppend(" " + name + ": " + cost + " (", seatsText);
    CountAppend(" " + name + ": " + cost + " (" + seatsText, " seats)\n");
  }

  /** The fixed pieces of a markup table row. */
  lemma MarkupRowPieces()
    ensures NewlineCount(" <tr><td>") == 0 && NewlineCount("</td><td>") == 0
    ensures NewlineCount("</td>") == 0 && NewlineCount("<td>") == 0
    ensures NewlineCount("</td></tr>\n") == 1
  {
    assert NoNewline(" <tr><td>") && NoNewline("</td><td>") && NoNewline("</td>") && NoNewline("<td>");
    assert "</td></tr>\n" == "</td></tr>" + "\n";
    assert NoNewline("</td></tr>");
    ClosedLine("</td></tr>");
  }

  lemma MarkupRowNewlines(name: string, seatsText: string, cost: string)
    requires NoNewline(name) && NoNewline(seatsText) && NoNewline(cost)
    ensures NewlineCount((" <tr><td>" + name + "</td><td>" + seatsText + "</td>") + ("<td>" + cost + "</td></tr>\n")) == 1
  {
    MarkupRowPieces();
    NoNewlineCount(name);
    NoNewlineCount(seatsText);
    NoNewlineCount(cost);
    CountAppend(" <tr><td>", name);
    CountAppend(" <tr><td>" + name, "</td><td>");
    CountAppend(" <tr><td>" + name + "</td><td>", seatsText);
    CountAppend(" <tr><td>" + name + "</td><td>" + seatsText, "</td>");
    CountAppend("<td>", cost);
    CountAppend("<td>" + cost, "</td></tr>\n");
    CountAppend(" <tr><td>" + name + "</td><td>" + seatsText + "</td>", "<td>" + cost + "</td></tr>\n");
  }

  /** A performance's line has exactly one line break when its title and cost have none. */
  lemma RowNewlines(style: Style, name: string, seats: nat, cents: nat)
    requires NoNewline(name) && NoNewline(Cost(style, cents))
    ensures NewlineCount(Row(style, name, seats, cents)) == 1
  {
    DigitsNoNewline(seats);
    match style
    case PlainText(fmt) => PlainRowNewlines(name, NatToString(seats), fmt(cents));
    case Markup(display) => MarkupRowNewlines(name, NatToString(seats), display(cents));
  }

  /** The lines of the performances hold one line break each, when titles and costs hold none. */
  lemma {:induction false} BodyNewlines(style: Style, s: seq<EnrichedPerformance>)
    requires AllSucceed(s, Amount)
    requires forall i :: 0 <= i < |s| ==> NoNewline(PlayOf(s[i]).value.name) && NoNewline(Cost(style, Amount(s[i]).value))
    ensures Body(style, s).Success? && NewlineCount(Body(style, s).value) == |s|
    decreases |s|
  {
    if s != [] {
      var n := |s| - 1;
      var init := s[..n];
      AllSucceedSplitLast(s, Amount);
      BodySucceeds(style, s);
      forall i | 0 <= i < n
        ensures NoNewline(PlayOf(init[i]).value.name) && NoNewline(Cost(style, Amount(init[i]).value))
      {
        assert init[i] == s[i];
      }
      BodyNewlines(style, init);
      var text := Body(style, init).value;
      BodyStep(style, s, n);
      assert s[..n + 1] == s;
      RowNewlines(style, PlayOf(s[n]).value.name, Audience(s[n]), Amount(s[n]).value);
      CountAppend(text, Line(style, s[n]).value);
    }
  }

  /**
   * The plain-text statement has one line for the customer, exactly one per
   * performance and two for the totals, when no title, customer name or
   * formatted amount holds a line break.
   */
  lemma PlainStatementNewlines(data: StatementData, fmt: nat -> string)
    requires Billable(data.performances)
    requires NoNewline(data.customer) && forall cents :: NoNewline(fmt(cents))
    requires forall i :: 0 <= i < |data.performances| ==> NoNewline(PlayOf(data.performances[i]).value.name)
    ensures Statement(PlainText(fmt), data).Success?
    ensures NewlineCount(Statement(PlainText(fmt), data).value) == |data.performances| + 3
  {
    var ps := data.performances;
    BodyNewlines(PlainText(fmt), ps);
    TotalIsSum(ps, Amount);
    TotalIsSum(ps, VolumeCredits);
    var body := Body(PlainText(fmt), ps).value;
    var owed := fmt(Total(ps, Amount).value);
    var credits := NatToString(Total(ps, VolumeCredits).value);
    DigitsNoNewline(Total(ps, VolumeCredits).value);
    PlainFramePieces();
    NoNewlineCount(data.customer);
    NoNewlineCount(owed);
    NoNewlineCount(credits);
    CountAppend("Statement for ", data.customer);
    CountAppend("Statement for " + data.customer, "\n");
    CountAppend("Amount owed is ", owed);
    CountAppend("Amount owed is " + owed, "\n");
    CountAppend("You earned ", credits);
    CountAppend("You earned " + credits, " credits\n");
    CountAppend("Amount owed is " + owed + "\n", "You earned " + credits + " credits\n");
    var header := Header(PlainText(fmt), data.customer);
    var footer := Footer(PlainText(fmt), Total(ps, Amount).value, Total(ps, VolumeCredits).value);
    CountAppend(header, body);
    CountAppend(header + body, footer);
  }

  /** The fixed pieces of the plain-text header and footer. */
  lemma PlainFramePieces()
    ensures NewlineCount("Statement for ") == 0 && NewlineCount("Amount owed is ") == 0
    ensures NewlineCount("You earned ") == 0 && NewlineCount("\n") == 1
    ensures NewlineCount(" credits\n") == 1
  {
    StatementForPiece();
    AmountOwedPiece();
    YouEarnedPiece();
    CreditsTail();
    assert multiset("\n") == multiset{'\n'};
  }

  /** Solver aid: the header literal has no line break (one literal per lemma keeps each multiset small). */
  lemma StatementForPiece()
    ensures NewlineCount("Statement for ") == 0
  {
    NoNewlineCount("Statement for ");
  }

  /** Solver aid: the owed-line literal has no line break. */
  lemma AmountOwedPiece()
    ensures NewlineCount("Amount owed is ") == 0
  {
    NoNewlineCount("Amount owed is ");
  }

  /** Solver aid: the credits-line literal has no line break. */
  lemma YouEarnedPiece()
    ensures NewlineCount("You earned ") == 0
  {
    NoNewlineCount("You earned ");
  }

  /** Solver aid: the credits-line tail holds exactly one line break. */
  lemma CreditsTail()
    ensures NewlineCount(" credits\n") == 1
  {
    assert " credits\n" == " credits" + "\n";
    NoNewlineCount(" credits");
    ClosedLine(" credits");
  }
}
