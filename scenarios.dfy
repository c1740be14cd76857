/**
 * The worked examples of rust/tests/test.rs, stated against the model: the
 * BigCo invoice rendered in both styles, and an invoice whose catalog only
 * has play types the pricing rules do not know.
 *
 * The currency formatter is left abstract, so where the expected output
 * shows `$650.00` (plain) or `650.00` (markup) the model shows the
 * formatter applied to 65000 cents.
 */
module Scenarios {
  import opened Types
  import opened StatementData
  import opened Render
  import opened Decimal

  function BigCoPlays(): Plays
  {
    map[
      "hamlet" := Play("Hamlet", "tragedy"),
      "as-like" := Play("As You Like It", "comedy"),
      "othello" := Play("Othello", "tragedy")
    ]
  }

  function BigCoInvoice(): Invoice
  {
    Invoice("BigCo", [Performance("hamlet", 55), Performance("as-like", 35), Performance("othello", 40)])
  }

  function BigCo(): StatementData
  {
    CreateStatementData(BigCoInvoice(), BigCoPlays())
  }

  /** The BigCo statement data: the invoice's performances, in order, each against the catalog. */
  lemma BigCoPerformances()
    ensures BigCo().customer == "BigCo"
    ensures BigCo().performances == [
              EnrichedPerformance(Performance("hamlet", 55), BigCoPlays()),
              EnrichedPerformance(Performance("as-like", 35), BigCoPlays()),
              EnrichedPerformance(Performance("othello", 40), BigCoPlays())]
  {
  }

  /** Hamlet with 55 seats: 400.00 plus 25 seats at 10.00; 25 credits. */
  lemma HamletFigures()
    ensures Amount(EnrichedPerformance(Performance("hamlet", 55), BigCoPlays())) == Success(65000)
    ensures VolumeCredits(EnrichedPerformance(Performance("hamlet", 55), BigCoPlays())) == Success(25)
  {
    assert BigCoPlays()["hamlet"] == Play("Hamlet", "tragedy");
  }

  /** As You Like It with 35 seats: 300.00 + 100.00 + 15 seats at 5.00 + 35 seats at 3.00; 5 + 7 credits. */
  lemma AsYouLikeItFigures()
    ensures Amount(EnrichedPerformance(Performance("as-like", 35), BigCoPlays())) == Success(58000)
    ensures VolumeCredits(EnrichedPerformance(Performance("as-like", 35), BigCoPlays())) == Success(12)
  {
    assert BigCoPlays()["as-like"] == Play("As You Like It", "comedy");
  }

  /** Othello with 40 seats: 400.00 plus 10 seats at 10.00; 10 credits. */
  lemma OthelloFigures()
    ensures Amount(EnrichedPerformance(Performance("othello", 40), BigCoPlays())) == Success(50000)
    ensures VolumeCredits(EnrichedPerformance(Performance("othello", 40), BigCoPlays())) == Success(10)
  {
    assert BigCoPlays()["othello"] == Play("Othello", "tragedy");
  }

  /** The BigCo totals: 1,730.00 owed and 47 credits earned. */
  lemma BigCoTotals()
    ensures Total(BigCo().performances, Amount) == Success(173000)
    ensures Total(BigCo().performances, VolumeCredits) == Success(47)
  {
    BigCoPerformances();
    HamletFigures();
    AsYouLikeItFigures();
    OthelloFigures();
    var ps := BigCo().performances;
    TotalIsSum(ps, Amount);
    TotalIsSum(ps[1..], Amount);
    TotalIsSum(ps[2..], Amount);
    TotalIsSum(ps[3..], Amount);
    TotalIsSum(ps, VolumeCredits);
    TotalIsSum(ps[1..], VolumeCredits);
    TotalIsSum(ps[2..], VolumeCredits);
    TotalIsSum(ps[3..], VolumeCredits);
  }

  /** The line of each BigCo performance, in either style. */
  lemma BigCoLines(style: Style)
    ensures |BigCo().performances| == 3
    ensures Amount(BigCo().performances[0]).Success? && Line(style, BigCo().performances[0]).value == Row(style, "Hamlet", 55, 65000)
    ensures Amount(BigCo().performances[1]).Success? && Line(style, BigCo().performances[1]).value == Row(style, "As You Like It", 35, 58000)
    ensures Amount(BigCo().performances[2]).Success? && Line(style, BigCo().performances[2]).value == Row(style, "Othello", 40, 50000)
  {
    BigCoPerformances();
    HamletFigures();
    AsYouLikeItFigures();
    OthelloFigures();
  }

  /** The body of three priceable performances is their three lines in order. */
  lemma ThreeLines(style: Style, ps: seq<EnrichedPerformance>)
    requires |ps| == 3 && Amount(ps[0]).Success? && Amount(ps[1]).Success? && Amount(ps[2]).Success?
    ensures Body(style, ps) == Success(Line(style, ps[0]).value + Line(style, ps[1]).value + Line(style, ps[2]).value)
  {
    assert ps[..0] == [];
    assert Body(style, ps[..0]) == Success("");
    BodyStep(style, ps, 0);
    assert "" + Line(style, ps[0]).value == Line(style, ps[0]).value;
    BodyStep(style, ps, 1);
    BodyStep(style, ps, 2);
    assert ps[..3] == ps;
  }

  /** The BigCo lines in invoice order, in either style. */
  lemma BigCoBody(style: Style)
    ensures Body(style, BigCo().performances) ==
            Success(Row(style, "Hamlet", 55, 65000) + Row(style, "As You Like It", 35, 58000) + Row(style, "Othello", 40, 50000))
  {
    BigCoLines(style);
    ThreeLines(style, BigCo().performances);
  }

  /** Solver aid: the numerals of the BigCo seat counts and credit total. */
  lemma SeatCounts()
    ensures NatToString(55) == "55" && NatToString(35) == "35" && NatToString(40) == "40" && NatToString(47) == "47"
  {
  }

  /** A plain-text line with its literal pieces joined. */
  lemma PlainLine(fmt: nat -> string, name: string, seats: nat, cents: nat, lead: string, tail: string)
    requires lead == " " + name + ": " && tail == " (" + NatToString(seats) + " seats)\n"
    ensures Row(PlainText(fmt), name, seats, cents) == lead + fmt(cents) + tail
  {
    var pre := " " + name + ": " + fmt(cents);
    assert pre == lead + fmt(cents);
    AppendAssoc(pre + " (", NatToString(seats), " seats)\n");
    AppendAssoc(pre, " (", NatToString(seats) + " seats)\n");
    AppendAssoc(" (", NatToString(seats), " seats)\n");
  }

  lemma PlainLines(fmt: nat -> string)
    ensures Row(PlainText(fmt), "Hamlet", 55, 65000) == " Hamlet: " + fmt(65000) + " (55 seats)\n"
    ensures Row(PlainText(fmt), "As You Like It", 35, 58000) == " As You Like It: " + fmt(58000) + " (35 seats)\n"
    ensures Row(PlainText(fmt), "Othello", 40, 50000) == " Othello: " + fmt(50000) + " (40 seats)\n"
  {
    SeatCounts();
    PlainLine(fmt, "Hamlet", 55, 65000, " Hamlet: ", " (55 seats)\n");
    PlainLine(fmt, "As You Like It", 35, 58000, " As You Like It: ", " (35 seats)\n");
    PlainLine(fmt, "Othello", 40, 50000, " Othello: ", " (40 seats)\n");
  }

  lemma BigCoPlainFrame(fmt: nat -> string)
    ensures Header(PlainText(fmt), "BigCo") == "Statement for BigCo\n"
    ensures Footer(PlainText(fmt), 173000, 47) == ("Amount owed is " + fmt(173000) + "\n") + "You earned 47 credits\n"
  {
    SeatCounts();
  }

  /** The plain-text BigCo statement, line by line. */
  lemma BigCoPlainStatement(fmt: nat -> string)
    ensures Statement(PlainText(fmt), BigCo()) == Success(
              "Statement for BigCo\n" +
              (" Hamlet: " + fmt(65000) + " (55 seats)\n") +
              (" As You Like It: " + fmt(58000) + " (35 seats)\n") +
              (" Othello: " + fmt(50000) + " (40 seats)\n") +
              ("Amount owed is " + fmt(173000) + "\n") +
              "You earned 47 credits\n")
  {
    var style := PlainText(fmt);
    BigCoPerformances();
    BigCoBody(style);
    BigCoTotals();
    PlainLines(fmt);
    var header := "Statement for BigCo\n";
    var r1, r2, r3 := Row(style, "Hamlet", 55, 65000), Row(style, "As You Like It", 35, 58000), Row(style, "Othello", 40, 50000);
    var owed, earned := "Amount owed is " + fmt(173000) + "\n", "You earned 47 credits\n";
    BigCoPlainFrame(fmt);
    AppendAssoc(header, r1 + r2, r3);
    AppendAssoc(header, r1, r2);
    AppendAssoc(header + r1 + r2 + r3, owed, earned);
  }

  /** A table row with its literal opening cells joined. */
  lemma MarkupLine(display: nat -> string, name: string, seats: nat, cents: nat, numeral: string, cells: string)
    requires numeral == NatToString(seats) && cells == " <tr><td>" + name + "</td><td>" + numeral + "</td>"
    ensures Row(Markup(display), name, seats, cents) == cells + ("<td>" + display(cents) + "</td></tr>\n")
  {
  }

  lemma MarkupLines(display: nat -> string)
    ensures Row(Markup(display), "Hamlet", 55, 65000) ==
            " <tr><td>Hamlet</td><td>55</td>" + ("<td>" + display(65000) + "</td></tr>\n")
    ensures Row(Markup(display), "As You Like It", 35, 58000) ==
            " <tr><td>As You Like It</td><td>35</td>" + ("<td>" + display(58000) + "</td></tr>\n")
    ensures Row(Markup(display), "Othello", 40, 50000) ==
            " <tr><td>Othello</td><td>40</td>" + ("<td>" + display(50000) + "</td></tr>\n")
  {
    SeatCounts();
    HamletCells();
    AsYouLikeItCells();
    OthelloCells();
    MarkupLine(display, "Hamlet", 55, 65000, "55", " <tr><td>Hamlet</td><td>55</td>");
    MarkupLine(display, "As You Like It", 35, 58000, "35", " <tr><td>As You Like It</td><td>35</td>");
    MarkupLine(display, "Othello", 40, 50000, "40", " <tr><td>Othello</td><td>40</td>");
  }

  /** Solver aid: the Hamlet row's literal pieces joined; one join per lemma keeps each proof cheap. */
  lemma HamletCells()
    ensures " <tr><td>" + "Hamlet" + "</td><td>" + "55" + "</td>" == " <tr><td>Hamlet</td><td>55</td>"
  {
  }

  /** Solver aid: the As You Like It row's literal pieces joined. */
  lemma AsYouLikeItCells()
    ensures " <tr><td>" + "As You Like It" + "</td><td>" + "35" + "</td>" == " <tr><td>As You Like It</td><td>35</td>"
  {
  }

  /** Solver aid: the Othello row's literal pieces joined. */
  lemma OthelloCells()
    ensures " <tr><td>" + "Othello" + "</td><td>" + "40" + "</td>" == " <tr><td>Othello</td><td>40</td>"
  {
  }

  lemma BigCoMarkupFrame(display: nat -> string)
    ensures Header(Markup(display), "BigCo") ==
            "<h1>Statement for BigCo</h1>\n" + "<table>\n" + "<tr><th>play</th><th>seats</th><th>cost</th></tr>"
    ensures Footer(Markup(display), 173000, 47) ==
            "</table>\n" + ("<p>Amount owed is <em>" + display(173000) + "</em></p>\n") + "<p>You earned <em>47</em> credits</p>\n"
  {
    assert "<h1>Statement for " + "BigCo" + "</h1>\n" == "<h1>Statement for BigCo</h1>\n";
    CreditsLine();
  }

  /** Solver aid: the HTML credits paragraph for 47 credits, with its numeral written out. */
  lemma CreditsLine()
    ensures "<p>You earned <em>" + NatToString(47) + "</em> credits</p>\n" == "<p>You earned <em>47</em> credits</p>\n"
  {
    assert NatToString(47) == "47";
  }

  /** The markup BigCo statement, piece by piece as the renderer appends them. */
  lemma BigCoHtmlStatement(display: nat -> string)
    ensures Statement(Markup(display), BigCo()) == Success(
              "<h1>Statement for BigCo</h1>\n" + "<table>\n" + "<tr><th>play</th><th>seats</th><th>cost</th></tr>" +
              (" <tr><td>Hamlet</td><td>55</td>" + ("<td>" + display(65000) + "</td></tr>\n")) +
              (" <tr><td>As You Like It</td><td>35</td>" + ("<td>" + display(58000) + "</td></tr>\n")) +
              (" <tr><td>Othello</td><td>40</td>" + ("<td>" + display(50000) + "</td></tr>\n")) +
              "</table>\n" +
              ("<p>Amount owed is <em>" + display(173000) + "</em></p>\n") +
              "<p>You earned <em>47</em> credits</p>\n")
  {
    var style := Markup(display);
    BigCoPerformances();
    BigCoBody(style);
    BigCoTotals();
    MarkupLines(display);
    BigCoMarkupFrame(display);
    var header := Header(style, "BigCo");
    var r1, r2, r3 := Row(style, "Hamlet", 55, 65000), Row(style, "As You Like It", 35, 58000), Row(style, "Othello", 40, 50000);
    var closing, owed, earned := "</table>\n", "<p>Amount owed is <em>" + display(173000) + "</em></p>\n", "<p>You earned <em>47</em> credits</p>\n";
    AppendAssoc(header, r1 + r2, r3);
    AppendAssoc(header, r1, r2);
    var lines := header + r1 + r2 + r3;
    AppendAssoc(lines, closing + owed, earned);
    AppendAssoc(lines, closing, owed);
  }

  function NewPlayTypesPlays(): Plays
  {
    map["henry-v" := Play("Henry V", "history"), "as-like" := Play("As You Like It", "pastoral")]
  }

  function NewPlayTypes(): StatementData
  {
    CreateStatementData(Invoice("BigCoII", [Performance("henry-v", 53), Performance("as-like", 55)]), NewPlayTypesPlays())
  }

  /** A catalog of play types the pricing rules do not know: the statement aborts on the first one. */
  lemma NewPlayTypesStatement(style: Style)
    ensures Statement(style, NewPlayTypes()) == Failure(UnknownType("history"))
  {
    var ps := NewPlayTypes().performances;
    assert ps[0] == EnrichedPerformance(Performance("henry-v", 53), NewPlayTypesPlays());
    assert NewPlayTypesPlays()["henry-v"].pType == "history";
    assert Amount(ps[0]) == Failure(UnknownType("history"));
    assert Body(style, ps[..0]) == Success("") by { assert ps[..0] == []; }
    BodyStep(style, ps, 0);
  }
}
