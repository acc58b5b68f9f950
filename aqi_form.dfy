/** The input form: the fixed list of selectable cities, the temperature badge and the submit button. */
module AqiForm {
  import opened Wire

  /** `cities`: the options of the city selector, also used as React keys. */
  const Cities: seq<string> := [
    "Ahmedabad", "Aizawl", "Amaravati", "Amritsar", "Bengaluru", "Bhopal",
    "Brajrajnagar", "Chandigarh", "Chennai", "Coimbatore", "Delhi", "Ernakulam",
    "Gurugram", "Guwahati", "Hyderabad", "Jaipur", "Jorapokhar", "Kochi",
    "Kolkata", "Lucknow", "Mumbai", "Patna", "Shillong", "Talcher",
    "Thiruvananthapuram", "Visakhapatnam"
  ]

  /** `disabled={loading}` on the submit button. */
  predicate SubmitDisabled(loading: bool) {
    loading
  }

  /** The form's own state: the `temp` reading behind the weather badge. */
  class Form {
    var temp: Scalar

    constructor()
      ensures temp == Null
    {
      temp := Null;
    }

    /** The badge is rendered when `temp` is truthy. */
    predicate ShowsBadge()
      reads this
    {
      Truthy(temp)
    }

    /** `handleCityChange`. `reply` is what `fetch(...).json()` yields for the weather request: the decoded
        body, or None when the fetch or the decoding throws; it is not consulted for an empty city.
        `requested` is the city whose weather is fetched, or None when no request is made. */
    method HandleCityChange(city: string, reply: Option<WeatherBody>) returns (requested: Option<string>)
      modifies this
      ensures requested == (if city == "" then None else Some(city))
      ensures city == "" ==> temp == old(temp)
      ensures city != "" && reply.None? ==> temp == Null
      ensures city != "" && reply.Some? && FieldTruthy(TemperatureOf(reply.value)) ==>
                temp == TemperatureOf(reply.value).value
      ensures city != "" && reply.Some? && !FieldTruthy(TemperatureOf(reply.value)) ==> temp == old(temp)
    {
      if city == "" {
        return None;
      }
      requested := Some(city);
      match reply
      case None =>
        temp := Null;
      case Some(data) =>
        if FieldTruthy(TemperatureOf(data)) {
          temp := TemperatureOf(data).value;
        }
    }
  }

  /** A reading of one city survives a later selection whose reply carries no truthy temperature: the badge
      keeps showing the earlier city's value. */
  method StaleReadingPersists(first: string, second: string, celsius: real, secondReply: WeatherBody)
    returns (shown: bool, temp: Scalar)
    requires first != "" && second != "" && celsius != 0.0
    requires !FieldTruthy(TemperatureOf(secondReply))
    ensures shown && temp == Num(celsius)
  {
    var form := new Form();
    var _ := form.HandleCityChange(first, Some(Temperature(Num(celsius))));
    var _ := form.HandleCityChange(second, Some(secondReply));
    shown, temp := form.ShowsBadge(), form.temp;
  }

  /** A reading of exactly 0 degrees is falsy: it neither replaces an earlier reading nor shows a badge
      on a fresh form. */
  method ZeroDegreesHidesBadge(city: string) returns (shown: bool)
    requires city != ""
    ensures !shown
  {
    var form := new Form();
    var _ := form.HandleCityChange(city, Some(Temperature(Num(0.0))));
    shown := form.ShowsBadge();
  }
}
