/** The stand-alone allocation calculator: it reads an amount in reais,
    checks it and the exchange rate, and splits the amount over the same four
    buckets as the investment page, converting the dollar bucket to dollars
    at the rate of one real in dollars. */
module Calculator {
  import opened Wrappers
  import Wallet

  /** Why the calculate button shows nothing. */
  datatype CalcError = InvalidAmount | RateUnavailable

  /** What the calculate button shows: the four buckets in reais, the dollar
      bucket in dollars, and its 60/40 split in dollars. */
  datatype Breakdown = Breakdown(
    crypto: real, dollarBrl: real, fixedIncome: real, brStocks: real,
    dollarUsd: real, usStocksUsd: real, usEtfUsd: real)

  /** `text.replace(',', '.')`: only the first comma becomes a point. */
  function ReplaceFirstComma(s: string): (r: string)
    ensures |r| == |s|
    ensures forall j :: 0 <= j < |s| ==>
      r[j] == if s[j] == ',' && ',' !in s[..j] then '.' else s[j]
  {
    if s == [] then []
    else if s[0] == ',' then
      assert forall j :: 1 <= j < |s| ==> ',' in s[..j] by {
        forall j | 1 <= j < |s| ensures ',' in s[..j] { assert s[..j][0] == ','; }
      }
      ['.'] + s[1..]
    else
      var rest := ReplaceFirstComma(s[1..]);
      assert forall j :: 1 <= j < |s| ==> (',' in s[..j] <==> ',' in s[1..][..j - 1]) by {
        forall j | 1 <= j < |s| ensures ',' in s[..j] <==> ',' in s[1..][..j - 1] {
          assert s[..j] == [s[0]] + s[1..][..j - 1];
        }
      }
      [s[0]] + rest
  }

  /** Text without a comma goes to the parser unchanged. */
  lemma NoCommaUnchanged(s: string)
    requires ',' !in s
    ensures ReplaceFirstComma(s) == s
  {
  }

  /** A decimal comma becomes the decimal point, and a second comma stays. */
  lemma {:induction false} DecimalCommaReplaced(whole: string, rest: string)
    requires ',' !in whole
    ensures ReplaceFirstComma(whole + "," + rest) == whole + "." + rest
  {
    var s := whole + "," + rest;
    if whole == [] {
      assert s == [','] + rest && s[1..] == rest;
    } else {
      assert s[0] == whole[0] && s[1..] == whole[1..] + "," + rest;
      assert ',' !in whole[1..] by { assert forall i :: 0 <= i < |whole| - 1 ==> whole[1..][i] == whole[i + 1]; }
      DecimalCommaReplaced(whole[1..], rest);
      assert whole + "." + rest == [whole[0]] + (whole[1..] + "." + rest);
    }
  }

  /** JavaScript truthiness of the rate: missing and zero are both false. */
  predicate RateKnown(rate: Option<real>)
  {
    rate.Some? && rate.value != 0.0
  }

  /** The calculate button. `parse` stands for `parseFloat` (None for NaN);
      `brlToUsd` is the last rate fetched, None when the fetch failed. */
  function Calculate(input: string, parse: string -> Option<real>, brlToUsd: Option<real>): (r: Result<Breakdown, CalcError>)
    ensures var total := parse(ReplaceFirstComma(input));
      && (r == Err(InvalidAmount) <==> total.None? || total.value <= 0.0)
      && (r == Err(RateUnavailable) <==> total.Some? && total.value > 0.0 && !RateKnown(brlToUsd))
      && (r.Ok? ==>
            var b := r.value;
            && b.crypto + b.dollarBrl + b.fixedIncome + b.brStocks == total.value
            && b.dollarUsd == b.dollarBrl * brlToUsd.value
            && b.usStocksUsd + b.usEtfUsd == b.dollarUsd)
  {
    var total := parse(ReplaceFirstComma(input));
    if total.None? || total.value <= 0.0 then Err(InvalidAmount)
    else if !RateKnown(brlToUsd) then Err(RateUnavailable)
    else
      var t, rate := total.value, brlToUsd.value;
      var dollarBrl := t * 0.45;
      var dollarUsd := dollarBrl * rate;
      Ok(Breakdown(t * 0.10, dollarBrl, t * 0.18, t * 0.27, dollarUsd, dollarUsd * 0.60, dollarUsd * 0.40))
  }

  /** The calculator's buckets in reais are the investment page's allocation
      of the same amount. */
  lemma AgreesWithWallet(input: string, parse: string -> Option<real>, brlToUsd: Option<real>)
    requires Calculate(input, parse, brlToUsd).Ok?
    ensures var b := Calculate(input, parse, brlToUsd).value;
      var a := Wallet.Allocate(parse(ReplaceFirstComma(input)).value);
      && b.crypto == a.crypto && b.dollarBrl == a.dollar
      && b.fixedIncome == a.fixedIncome && b.brStocks == a.brStocks
  {
  }
}
