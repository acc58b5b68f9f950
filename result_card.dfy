/** The result card: status colours and icon chosen from the AQI, the server's status text as the badge. */
module ResultCard {
  import opened Wire
  import opened Bands

  datatype Icon = CheckCircle | Wind | ExclamationTriangle | Smog | Skull

  datatype StatusInfo = StatusInfo(color: string, bg: string, border: string, icon: Icon, labelText: string)

  /** `getStatusInfo`: a chain of early returns on `aqi <= 50`, `<= 100`, `<= 200`, `<= 300`, `<= 400`.
      The label it picks is the label of the reference band, undefined readings included. */
  function GetStatusInfo(aqi: Field<real>): (s: StatusInfo)
    ensures s.labelText == Label(ClassifyField(aqi))
  {
    ClassifyFieldRanges(aqi);
    if AtMost(aqi, 50.0) then
      StatusInfo("text-green-500", "bg-green-100 dark:bg-green-900/30", "border-green-500", CheckCircle, "Good")
    else if AtMost(aqi, 100.0) then
      StatusInfo("text-lime-500", "bg-lime-100 dark:bg-lime-900/30", "border-lime-500", Wind, "Satisfactory")
    else if AtMost(aqi, 200.0) then
      StatusInfo("text-yellow-500", "bg-yellow-100 dark:bg-yellow-900/30", "border-yellow-500", ExclamationTriangle, "Moderate")
    else if AtMost(aqi, 300.0) then
      StatusInfo("text-orange-500", "bg-orange-100 dark:bg-orange-900/30", "border-orange-500", Smog, "Poor")
    else if AtMost(aqi, 400.0) then
      StatusInfo("text-red-500", "bg-red-100 dark:bg-red-900/30", "border-red-500", Skull, "Very Poor")
    else
      StatusInfo("text-purple-600", "bg-purple-100 dark:bg-purple-900/30", "border-purple-600", Skull, "Severe")
  }

  /** Two readings get the same status styling exactly when they fall in the same reference band. */
  lemma StatusInfoSameIffSameBand(a: Field<real>, b: Field<real>)
    ensures GetStatusInfo(a) == GetStatusInfo(b) <==> ClassifyField(a) == ClassifyField(b)
  {
    LabelsDistinct(ClassifyField(a), ClassifyField(b));
    if a.Defined? { ClassifyRanges(a.value); }
    if b.Defined? { ClassifyRanges(b.value); }
  }

  /** What the card shows, apart from the rounded AQI figure and the animation. */
  datatype Card = Card(color: string, bg: string, border: string, icon: Icon, badge: Field<string>, city: Field<string>)

  /** `ResultCard({ data })`: nothing without data; otherwise styling from the local band and texts from the server. */
  function Render(data: Option<PredictBody>): (card: Option<Card>)
    ensures card.None? <==> data.None?
    ensures card.Some? ==> card.value.badge == AirQualityStatus(data.value) && card.value.city == InputCity(data.value)
  {
    match data
    case None => None
    case Some(body) =>
      var status := GetStatusInfo(PredictedAqi(body));
      Some(Card(status.color, status.bg, status.border, status.icon, AirQualityStatus(body), InputCity(body)))
  }

  /** Styling of a rendered card: everything that comes from the local band. */
  function Style(c: Card): (string, string, string, Icon) {
    (c.color, c.bg, c.border, c.icon)
  }

  /** The card's styling depends on the reported AQI only through its band; the badge is the server's
      text, whatever band the AQI falls in locally. */
  lemma CardStyleFollowsBand(d1: PredictBody, d2: PredictBody)
    ensures Render(Some(d1)).Some? && Render(Some(d2)).Some?
    ensures Style(Render(Some(d1)).value) == Style(Render(Some(d2)).value)
        <==> ClassifyField(PredictedAqi(d1)) == ClassifyField(PredictedAqi(d2))
  {
    var s1, s2 := GetStatusInfo(PredictedAqi(d1)), GetStatusInfo(PredictedAqi(d2));
    StatusInfoSameIffSameBand(PredictedAqi(d1), PredictedAqi(d2));
    if Style(Render(Some(d1)).value) == Style(Render(Some(d2)).value) {
      assert (s1.color, s1.bg, s1.border, s1.icon) == (s2.color, s2.bg, s2.border, s2.icon);
      assert s1 == s2;
    }
  }

  /** An `{"error": ...}` body is still rendered: its missing AQI fails every comparison, so the card is
      styled as Severe (like a reading of 401) and its badge and city are undefined. */
  lemma ErrorBodyRendersAsSevere(message: string, status: string, city: string)
    ensures Render(Some(PredictError(message))).Some?
    ensures Render(Some(PredictError(message))).value.badge == Undefined
    ensures Style(Render(Some(PredictError(message))).value) == Style(Render(Some(Prediction(401.0, status, city))).value)
  {
  }
}
