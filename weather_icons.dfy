/**
 * Condition classification behind `getWeatherIcon` and `getSmallWeatherIcon`: a closed
 * switch on the lower-cased `main` label of a weather descriptor, with a day/night
 * fallback read from the icon code.
 */
module WeatherIcons {

  /** The four icon components the dashboard draws. */
  datatype IconKind = Sun | Cloud | CloudRain | CloudSnow

  /** `w-12 h-12` for the main card, `w-6 h-6` for forecast rows. */
  datatype IconSize = Large | Small

  datatype Icon = Icon(kind: IconKind, size: IconSize)

  function LowerChar(c: char): char {
    if 'A' <= c <= 'Z' then (c as int + 32) as char else c
  }

  /** `toLowerCase`, on the ASCII letters. */
  function ToLower(s: string): (r: string)
    ensures |r| == |s|
    ensures forall i :: 0 <= i < |s| ==> r[i] == LowerChar(s[i])
  {
    seq(|s|, i requires 0 <= i < |s| => LowerChar(s[i]))
  }

  /** The labels the switch names explicitly. */
  predicate Recognised(main: string) {
    var m := ToLower(main);
    m == "clear" || m == "clouds" || m == "rain" || m == "drizzle" || m == "snow"
  }

  /** The icon component both icon functions choose for a descriptor. */
  function Classify(main: string, iconCode: string): (k: IconKind)
    ensures k == CloudRain <==> ToLower(main) == "rain" || ToLower(main) == "drizzle"
    ensures k == CloudSnow <==> ToLower(main) == "snow"
    ensures k == Sun <==> ToLower(main) == "clear" || (!Recognised(main) && 'd' in iconCode)
    ensures k == Cloud <==> ToLower(main) == "clouds" || (!Recognised(main) && 'd' !in iconCode)
  {
    var isDay := 'd' in iconCode;
    var m := ToLower(main);
    if m == "clear" then Sun
    else if m == "clouds" then Cloud
    else if m == "rain" || m == "drizzle" then CloudRain
    else if m == "snow" then CloudSnow
    else if isDay then Sun else Cloud
  }

  function GetWeatherIcon(main: string, iconCode: string): (i: Icon)
    ensures i.kind == Classify(main, iconCode)
    ensures i.size == Large
  {
    Icon(Classify(main, iconCode), Large)
  }

  function GetSmallWeatherIcon(main: string, iconCode: string): (i: Icon)
    ensures i.kind == Classify(main, iconCode)
    ensures i.size == Small
  {
    Icon(Classify(main, iconCode), Small)
  }

  lemma ToLowerIdempotent(s: string)
    ensures ToLower(ToLower(s)) == ToLower(s)
  {
  }

  /** The two icon functions pick the same component and differ only in size. */
  lemma IconVariantsAgree(main: string, iconCode: string)
    ensures GetWeatherIcon(main, iconCode).kind == GetSmallWeatherIcon(main, iconCode).kind
    ensures GetWeatherIcon(main, iconCode).size != GetSmallWeatherIcon(main, iconCode).size
  {
  }

  /** Classification ignores the case of the label: any label and its lower-cased form agree. */
  lemma ClassifyIgnoresCase(main: string, iconCode: string)
    ensures Classify(main, iconCode) == Classify(ToLower(main), iconCode)
  {
    ToLowerIdempotent(main);
  }

  /** A recognised label fixes the icon whatever the icon code; only other labels read the day marker. */
  lemma DayMarkerOnlyForUnrecognised(main: string, code1: string, code2: string)
    ensures Recognised(main) ==> Classify(main, code1) == Classify(main, code2)
    ensures !Recognised(main) ==> (Classify(main, code1) == Sun <==> 'd' in code1)
    ensures !Recognised(main) ==> Classify(main, code1) in {Sun, Cloud}
  {
  }

  /** The provider's usual capitalised labels. */
  lemma ProviderLabels(code: string)
    ensures Classify("Clear", code) == Sun
    ensures Classify("Clouds", code) == Cloud
    ensures Classify("Rain", code) == CloudRain && Classify("Drizzle", code) == CloudRain
    ensures Classify("Snow", code) == CloudSnow
    ensures Classify("Mist", "50d") == Sun && Classify("Mist", "50n") == Cloud
  {
  }
}
