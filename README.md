# Theatrical players statement engine, in Dafny

This project models the Rust statement printer of the theatrical-players
kata. An invoice lists the performances a customer booked: a play
identifier and an audience size for each. A catalog maps play identifiers
to a title and a play type. The engine prices each performance by its
play type, awards loyalty ("volume") credits, sums both over the invoice,
and renders the result as a plain-text statement or as an HTML fragment.

Modules:

- `Types` (`types.dfy`): the input records `Performance`, `Invoice` and
  `Play`, and the catalog `Plays`, a `map<string, Play>`. It also defines
  `Result`/`Error`. Each of the three panics the model keeps becomes a `Failure`:
  - `UnknownPlay(id)`: a missing catalog key;
  - `UnknownType(type)`: an unknown play type;
  - `CreditUnderflow(audience)`: the unsigned `audience - 30` with fewer
    than 30 seats.
- `Pricing` (`pricing.dfy`): a reference definition of the pricing rules
  as a closed `Genre` variant (`Tragedy | Comedy`). It gives each genre's
  charge and credit formula in closed form. The string-dispatching code is
  proved against it.
- `StatementData` (`statement_data.dfy`): `EnrichedPerformance::{amount,
  volume_credits, play, audience}`, `create_statement_data`, and the two
  summing loops `total_amount` and `total_volume_credits`.
  - The loops are methods. Each is proved equal to `Total`, a
    specification that collects the per-performance values in order and
    sums them.
  - `Total` is proved to be the plain sum, to fail exactly on the first
    failing performance, and to be independent of the order of the
    performances.
- `Decimal` (`decimal.dfy`): the decimal numeral that Rust's `{}` writes
  for seat counts and credit totals. It is proved injective by a parse
  round trip.
- `Render` (`render.dfy`): `render_plain_statement` and
  `render_html_statement`, as methods that grow the output string exactly
  as the Rust code does. A `Style` selects the statement kind and carries
  its currency formatter. Each method is proved equal to `Statement`,
  which is header, then `Body` (the lines of the performances in invoice
  order), then footer. Lemmas about `Statement` state:
  - when it succeeds;
  - which error it reports;
  - where each performance's line sits;
  - the empty invoice;
  - the line-break count of the plain statement.
- `Scenarios` (`scenarios.dfy`): the three worked examples of the test
  file.

Error order follows Rust's evaluation order:

- The renderer loop looks up the play before it prices the performance.
  The first performance that fails in the loop decides the error.
- The totals run only after the loop. By then every charge is known to
  succeed, so a credit underflow can only surface from the credit total.
- `volume_credits` subtracts before it looks up the play.

The `max(.., 0)` at rust/src/statement_data.rs:43 reads as a clamp at
zero for audiences below 30. But the code computes `self.perf.audience - 30`
on `u64` first, and that aborts a debug build before `max` is reached. The
model follows the code: it returns `CreditUnderflow`. The clamped formula
survives as the reference `Pricing.GenreCredits`, and it agrees with the
code whenever the code returns a value. The comedy bonus is `audience / 5`,
as the code computes it; the comment above it says "every ten".

## Model

| member | source | states |
|---|---|---|
| Pricing.GenreOf | rust/src/statement_data.rs:21-37 | only the exact strings "tragedy" and "comedy" select a pricing rule, each iff the string matches; every other type has none |
| Pricing.GenreAmount | rust/src/statement_data.rs:22-34 | the closed-form charge of a genre: a tragedy costs at least 40000, exactly 40000 iff at most 30 seats; a comedy costs at least 30000 + 300·a, exactly that iff at most 20 seats |
| Pricing.GenreCredits | rust/src/statement_data.rs:43-47 | the clamped reference credits: at least a−30; with no comedy bonus, zero iff at most 30 seats; a comedy earns at least a/5, exactly a/5 when at most 30 seats |
| StatementData.PlayOf | rust/src/statement_data.rs:51-53 | `play()` succeeds iff the play id is a catalog key, returns exactly that entry, and otherwise aborts with UnknownPlay(id) |
| StatementData.Amount | rust/src/statement_data.rs:19-40 | succeeds iff the play is in the catalog and its type is "tragedy" or "comedy"; the charge is then 40000 + 1000·max(0, a−30) for a tragedy and 30000 + 300·a + (a > 20 ? 10000 + 500·(a−20) : 0) for a comedy; a missing play aborts with UnknownPlay, any other type with UnknownType(type) |
| StatementData.VolumeCredits | rust/src/statement_data.rs:42-49 | succeeds iff the audience is at least 30 and the play is in the catalog; the credits are then (a−30) + (comedy ? a/5 : 0); fewer than 30 seats aborts with CreditUnderflow(a) before the catalog is consulted |
| StatementData.Collect | rust/src/statement_data.rs:61-67 | mapping a rule over the performances in order succeeds iff the rule succeeds on every performance, with one value per performance |
| StatementData.CollectValues | rust/src/statement_data.rs:61-67 | a successful collection holds at each position the rule's value for the performance at that position |
| StatementData.CollectFirstFailure | rust/src/statement_data.rs:61-67 | the first performance (in order) that the rule rejects decides the error of the whole pass |
| StatementData.Total | rust/src/statement_data.rs:61-76 | the specification of both summing loops: it succeeds iff the rule succeeds on every performance, and is then the sum of the collected values |
| StatementData.TotalAmount | rust/src/statement_data.rs:61-67 | the `for` loop accumulating `amount()` returns exactly Total(performances, Amount): the in-order sum of the charges, or the error of the first performance that cannot be priced |
| StatementData.TotalVolumeCredits | rust/src/statement_data.rs:69-76 | the `for` loop accumulating `volume_credits()` returns exactly Total(performances, VolumeCredits), or the error of the first performance that cannot be credited |
| StatementData.TotalIsSum | rust/src/statement_data.rs:61-76 | a total is 0 for no performances, succeeds iff every performance does, and is then the first performance's value plus the total of the rest |
| StatementData.TotalAppend | rust/src/statement_data.rs:61-76 | the total of two concatenated performance lists is the sum of their totals |
| StatementData.TotalPermutation | rust/src/statement_data.rs:61-76 | reordering the performances keeps every performance billable and leaves both totals unchanged |
| StatementData.CreateStatementData | rust/src/statement_data.rs:79-89 | the customer name is copied; one enriched performance per invoice performance, in the same position, with the same play id and audience, all against the given catalog |
| StatementData.EnrichAll | rust/src/statement_data.rs:82-86 | the `map(..).collect()` over the invoice: one enriched performance per input performance, at the same position, holding that performance and the shared catalog |
| StatementData.CreateStatementDataRoundTrip | rust/src/statement_data.rs:79-89 | projecting the enriched performances back gives the invoice's performances exactly, in order |
| Decimal.NatToString | rust/src/lib.rs:25-30 | a seat count is written as a non-empty string of decimal digits with no leading zero |
| Decimal.ParseNatToString | rust/src/lib.rs:25-30 | reading the written numeral back gives the number |
| Decimal.NatToStringInjective | rust/src/lib.rs:33 | different credit totals are written differently |
| Render.Header | rust/src/lib.rs:21-46 | the opening text: "Statement for <customer>" and a line break in plain text (line 21); the `<h1>` heading, the `<table>` line and the header row in HTML (lines 44-46) |
| Render.Row | rust/src/lib.rs:25-53 | one performance's text: " <title>: <cost> (<seats> seats)" and a line break in plain text (lines 25-30); the title and seats cells, then the cost cell and the row close in HTML (lines 48-53) |
| Render.Footer | rust/src/lib.rs:32-63 | the closing text: the owed line and the credits line in plain text (lines 32-33); the table close and the two `<p>` paragraphs in HTML (lines 55-63) |
| Render.Body | rust/src/lib.rs:23-54 | the rendering loop as a function: the lines of the performances in invoice order, or the error of the first one that cannot be priced (plain lines 23-31, HTML lines 47-54) |
| Render.Statement | rust/src/lib.rs:20-65 | a whole statement: header, body, then footer with the charge total and the credit total; errors in that order — body first, then the charge total, then the credit total |
| Render.Line | rust/src/lib.rs:25-30 | a performance's line exists iff the performance can be priced, and is then the row of the play's title, the audience and the charge; otherwise it carries the pricing error |
| Render.BodySucceeds | rust/src/lib.rs:23-31 | the loop over the performances completes iff every performance can be priced |
| Render.BodyFirstFailure | rust/src/lib.rs:23-31 | the loop aborts with the error of the first performance that cannot be priced |
| Render.BodyAppend | rust/src/lib.rs:23-31 | the lines of concatenated performance lists are the concatenated lines |
| Render.BodyLineAt | rust/src/lib.rs:23-31 | the line of performance k comes after the lines of all earlier performances and before the lines of all later ones |
| Render.RenderPlainStatement | rust/src/lib.rs:20-35 | appending the header, each line in order, the owed line and the credits line yields exactly Statement(PlainText(fmt), data), or the first error |
| Render.RenderHtmlStatement | rust/src/lib.rs:43-65 | appending the heading, the table opening and header row, each row's cells and cost cell, the table close and the two paragraphs yields exactly Statement(Markup(display), data), or the first error |
| Render.StatementSucceeds | rust/src/lib.rs:20-35 | a statement is produced iff every performance can be priced and credited |
| Render.StatementPricingError | rust/src/lib.rs:23-31 | a missing play or an unknown type in performance k, with all earlier performances priced, makes the statement fail with exactly that error |
| Render.StatementCreditError | rust/src/lib.rs:32-33 | with every performance priced, the first performance with fewer than 30 seats makes the statement fail with CreditUnderflow of its audience |
| Render.StatementLayout | rust/src/lib.rs:20-35 | a statement is the header, the lines before performance k, the line of k, the lines after k, then the footer with the charge total and the credit total |
| Render.StatementEmpty | rust/src/lib.rs:20-35 | an invoice with no performances gives the header followed by a footer owing 0 and earning 0 credits |
| Render.RowNewlines | rust/src/lib.rs:23-31 | each per-performance line (either style) holds exactly one line break when its title and cost hold none |
| Render.BodyNewlines | rust/src/lib.rs:23-31 | when every performance can be priced and no title or formatted cost holds a line break, the lines of n performances hold exactly n line breaks |
| Render.PlainStatementNewlines | rust/src/lib.rs:20-35 | when every performance can be priced and credited and no line break occurs in the customer name, any title or any formatted amount, the plain statement for n performances has exactly n + 3 line breaks: the header line, one per performance, two for the totals |
| Scenarios.BigCoPerformances | rust/tests/test.rs:9-40 | the BigCo statement data holds hamlet (55 seats), as-like (35) and othello (40), in that order |
| Scenarios.HamletFigures | rust/tests/test.rs:44 | Hamlet with 55 seats costs 65000 cents and earns 25 credits |
| Scenarios.AsYouLikeItFigures | rust/tests/test.rs:45 | As You Like It with 35 seats costs 58000 cents and earns 12 credits |
| Scenarios.OthelloFigures | rust/tests/test.rs:46 | Othello with 40 seats costs 50000 cents and earns 10 credits |
| Scenarios.BigCoTotals | rust/tests/test.rs:47-48 | BigCo owes 173000 cents and earns 47 credits |
| Scenarios.BigCoPlainStatement | rust/tests/test.rs:8-50 | the expected plain-text BigCo statement, line by line, with the formatter applied to 65000, 58000, 50000 and 173000 |
| Scenarios.BigCoHtmlStatement | rust/tests/test.rs:52-97 | the expected HTML BigCo statement, piece by piece, with the formatter applied to the same amounts |
| Scenarios.NewPlayTypesStatement | rust/tests/test.rs:99-121 | the BigCoII invoice, whose catalog has only "history" and "pastoral" plays, fails with UnknownType("history") in both styles |

## Left out

- JSON decoding is not modelled. This covers `serde_json::from_value(..).unwrap()`, the serde field aliases, and the public wrappers `plain_statement` / `html_statement` (rust/src/lib.rs:14-18, 37-41). The inputs are already-typed Dafny values.
- `usd` and the `currency_rs` crate (rust/src/lib.rs:9-12) are not modelled. They divide by 100.0 in floating point and hide their formatting. Each `Style` carries an arbitrary `nat -> string` instead: `fmt` stands for `usd(..).format()` in the plain statement, `display` for `usd(..)`'s `Display` in the HTML statement. The scenarios therefore show `fmt(65000)` where the test expects `$650.00`.
- The floating-point `floor(audience as f64 / 5.0)` in the comedy bonus is modelled as integer division `audience / 5`. The two agree for every realistic audience.
- StatementData.VolumeCredits: treats `audience - 30` below 30 seats as the debug-build panic (`CreditUnderflow`). It does not model the wrap-around of a release build.
- StatementData.Amount: uses unbounded `nat`, so `u64` overflow for astronomically large audiences or totals is not modelled. The same holds for TotalAmount and TotalVolumeCredits.
- The panic message text is not modelled; `UnknownType` carries the offending type instead. The same applies to the missing-key message, carried by `UnknownPlay`.
- Rust lifetimes, borrowing, and `total_volume_credits` taking `self` by value are not modelled. Neither is `HashMap` hashing: the catalog is a Dafny `map`.
- The `insta` snapshot machinery of the tests is not modelled.
- The line-break count is stated for the HTML per-performance rows and their sum (`RowNewlines`, `BodyNewlines`), but not for the HTML heading and closing paragraphs.
- The `audience()` accessor (rust/src/statement_data.rs:55-57) is `Audience`, with no contract of its own. CreateStatementData states that it returns the invoice's audience.
