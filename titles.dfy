/** Axis labels: a fixed table of trajectory quantities, each with a short label for
    figures of three or four subplots and a long one for figures of one or two. */
module Titles {
  import opened Base

  datatype Label = Label(short: string, long: string)

  /** The label table of `setTitle`, entry for entry: `None` for a name it lacks. */
  function PlotTitle(v: string): (entry: Option<Label>)
    ensures entry.Some? ==> entry.value.short != "" && entry.value.long != ""
  {
    match v
    case "ACCA" => Some(Label("Axial Accel, g's", "Axial Acceleration, aA, g's"))
    case "ACCN" => Some(Label("Norm Accel, g's", "Normal Acceleration, aN, g's"))
    case "ACCT" => Some(Label("Total Accel, g's", "Total Acceleration, aT, g's"))
    case "ALPHAD" => Some(Label("Angle Attack,deg", "Angle of Attack, alpha, degrees"))
    case "ALT" => Some(Label("Altitude, ft", "Altitude, h, feet"))
    case "AZMD" => Some(Label("Azimuth Ang, deg", "Azimuth Angle, azm, degrees"))
    case "BETAD" => Some(Label("Sideslip Ang,deg", "Sideslip Angle, beta, degrees"))
    case "CD" => Some(Label("Drag Coef,CD", "Drag Coefficient, CD"))
    case "CDOT(1)" => Some(Label("Control Rate(1)", "Control Rate(1)"))
    case "CDOT(2)" => Some(Label("Control Rate(2)", "Control Rate(2)"))
    case "CDOT(3)" => Some(Label("Control Rate(3)", "Control Rate(3)"))
    case "CL" => Some(Label("Lift Coef, CL", "Lift Coefficient, CL"))
    case "DRAG" => Some(Label("Drag, lbs", "Drag, D, lbs"))
    case "DVATM" => Some(Label("Drag Loss, f/s", "Drag Loss, DLoss,  f/s"))
    case "DVG" => Some(Label("Gravity Loss, f/s", "Gravity Loss, gLoss, f/s"))
    case "DVI" => Some(Label("Ideal Vel, f/s", "Ideal Velocity, dvi, f/s"))
    case "DVTV" => Some(Label("Thr Vec Loss,f/s", "Thrust Vector Loss, TVLoss, ft/sec"))
    case "GAMD" => Some(Label("FltPathAngle,deg", "Flight Path Angle, gamma, degrees"))
    case "GCR" => Some(Label("Range, nm", "Great Circle Range, R, n.miles"))
    case "GDALT" => Some(Label("Geodetic Alt,ft", "Geodetic Altitude, gdAlt, feet"))
    case "GDLATD" => Some(Label("Geodetic Lat,deg", "Geodetic Latitude, gdLat, degrees"))
    case "HA" => Some(Label("Apogee Alt, nm", "Apogee Altitude, Ha, n.miles"))
    case "HP" => Some(Label("Perigee Alt, nm", "Perigee Altitude, Hp, n.miles"))
    case "INCD" => Some(Label("Inclination, deg", "Inclination, inc, degrees"))
    case "ISP(1)" => Some(Label("ISP(1), sec", "Specific Impulse Engine 1, ISP(1), sec"))
    case "ISP(2)" => Some(Label("ISP(2), sec", "Specific Impulse Engine 2, ISP(2), sec"))
    case "ISP(3)" => Some(Label("ISP(3), sec", "Specific Impulse Engine 3, ISP(3), sec"))
    case "LATD" => Some(Label("Latitude, deg", "Latitude, LATD, degrees"))
    case "LIFT" => Some(Label("Lift, lbs", "Lift, L, lbs"))
    case "LOND" => Some(Label("Longitude, deg", "Longitude, lon, degrees"))
    case "MACH" => Some(Label("Mach Number, M", "Mach Number, M"))
    case "MASS" => Some(Label("Mass, slugs", "Mass, m, slugs"))
    case "PHID" => Some(Label("Roll Ang, deg", "Roll Angle, phi, degrees"))
    case "PSID" => Some(Label("Yaw Angle, deg", "Yaw Angle, psi, degrees"))
    case "Q" => Some(Label("DynPres, psf", "Dynamic Pressure, q, psf"))
    case "QALPHA" => Some(Label("qAlpha, psf-deg", "qAlpha, psf-degrees"))
    case "QDOT(1)" => Some(Label("Heating Rate(1)", "Heating Rate, QDOT, btu/ft^2"))
    case "RAD" => Some(Label("Radius, ft", "Radius, ft"))
    case "RANC" => Some(Label("Crossrange, nm", "Crossrange, CR, n.miles"))
    case "RAND" => Some(Label("Downrange, nm", "Downrange, DR, n.miles"))
    case "SIGMAD" => Some(Label("Bank Angle, deg", "Bank Angle, sigma, degrees"))
    case "THETAD" => Some(Label("PitchAng, deg", "Pitch Angle, theta, degrees"))
    case "THRUST" => Some(Label("Thrust, lbs", "Thrust, T, lbs"))
    case "TIME" => Some(Label("Time, seconds", "Time, t, seconds"))
    case "TVAC(1)" => Some(Label("Tvac(1), lbs", "Engine 1 Vacumn Thrust, Tvac(1), lbs"))
    case "TVAC(2)" => Some(Label("Tvac(2), lbs", "Engine 2 Vacumn Thrust, Tvac(2), lbs"))
    case "TVAC(3)" => Some(Label("Tvac(3), lbs", "Engine 3 Vacumn Thrust, Tvac(3), lbs"))
    case "TWALL(1)" => Some(Label("Stagnation Temp", "Stagnation Temperature, Twall"))
    case "VEL" => Some(Label("Velocity, f/s", "Velocity, V, f/s"))
    case "WDOT" => Some(Label("Wdot, lbs/sec", "Wdot, lbs/sec"))
    case "WEIGHT" => Some(Label("Weight, lbs", "Weight, W, lbs"))
    case _ => None
  }

  /** `setTitle(var, numPlots)`: the raw name for more than four subplots; otherwise
      the long label for at most two subplots and the short one for three or four;
      the raw name again for a name the table does not have. */
  function SetTitle(v: string, numPlots: int): (title: string)
    ensures numPlots > 4 ==> title == v
    ensures numPlots <= 4 && PlotTitle(v).None? ==> title == v
    ensures numPlots <= 2 && PlotTitle(v).Some? ==> title == PlotTitle(v).value.long
    ensures 2 < numPlots <= 4 && PlotTitle(v).Some? ==> title == PlotTitle(v).value.short
  {
    var level := if numPlots <= 2 then 1 else 0;
    if numPlots > 4 then v
    else
      var entry := if PlotTitle(v).Some? then PlotTitle(v).value else Label("", "");
      var title := if level == 1 then entry.long else entry.short;
      if title == "" then v else title
  }

  /** A label is the raw name or one of the two labels the table gives the name. */
  lemma TitleIsNameOrLabel(v: string, numPlots: int)
    ensures SetTitle(v, numPlots) == v
         || (PlotTitle(v).Some? && SetTitle(v, numPlots) in {PlotTitle(v).value.short, PlotTitle(v).value.long})
  {
  }

  lemma TitleExamples()
    ensures SetTitle("ALT", 1) == "Altitude, h, feet"
    ensures SetTitle("ALT", 3) == "Altitude, ft"
    ensures SetTitle("ALT", 5) == "ALT"
    ensures SetTitle("UNKNOWNVAR", 1) == "UNKNOWNVAR"
  {
  }
}
