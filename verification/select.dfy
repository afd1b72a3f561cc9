/**
 * The charge-mode select (select.py). The current option maps the mode the
 * server reports onto one of three options; selecting an option computes the
 * server's name for it but sends nothing (the client has no setter for it)
 * and only requests a refresh.
 */
module Select {
  import opened Json
  import opened Entity

  const Options: seq<string> := ["immediate", "scheduled", "economic"]

  /** The server's mode names, and the options themselves, mapped to options. */
  const OptionOfMode: map<string, string> := map[
    "now" := "immediate", "schedule" := "scheduled", "eco" := "economic",
    "immediate" := "immediate", "scheduled" := "scheduled", "economic" := "economic"]

  /** Each option mapped to the server's mode name. */
  const ModeOfOption: map<string, string> := map[
    "immediate" := "now", "scheduled" := "schedule", "economic" := "eco"]

  /** `mode_mapping.get(mode, "immediate")`: keys are strings, so any other value misses. */
  function OptionFor(mode: Json): (r: string)
    ensures r in Options
    ensures mode.Str? && mode.s in OptionOfMode ==> r == OptionOfMode[mode.s]
    ensures !(mode.Str? && mode.s in OptionOfMode) ==> r == "immediate"
  {
    if mode.Str? && mode.s in OptionOfMode then OptionOfMode[mode.s] else "immediate"
  }

  /** The mode can be looked up in a dict: a list or dict value raises TypeError. */
  predicate ModeReadable(rec: Record) {
    ChargingReadable(rec) && ("mode" in Charging(rec) ==> !Charging(rec)["mode"].Arr? && !Charging(rec)["mode"].Obj?)
  }

  /** The current option: the reported mode mapped to an option, "immediate" when absent or unknown. */
  function CurrentOption(rec: Record): (r: string)
    requires ModeReadable(rec)
    ensures r in Options
    ensures r == OptionFor(PathOr(Obj(rec), ChargingPath("mode"), Str("immediate")))
  {
    OptionFor(Get(Charging(rec), "mode", Str("immediate")))
  }

  /** The server aliases and the option names map as documented. */
  lemma ModeAliases()
    ensures OptionFor(Str("now")) == "immediate"
    ensures OptionFor(Str("schedule")) == "scheduled"
    ensures OptionFor(Str("eco")) == "economic"
    ensures forall o :: o in Options ==> OptionFor(Str(o)) == o
  {
  }

  /** `mode_mapping.get(option, "now")`: the server mode for an option. */
  function ApiModeFor(option: string): (r: string)
    ensures option == "immediate" ==> r == "now"
    ensures option == "scheduled" ==> r == "schedule"
    ensures option == "economic" ==> r == "eco"
    ensures option !in ModeOfOption ==> r == "now"
  {
    if option in ModeOfOption then ModeOfOption[option] else "now"
  }

  /** Round trip: reading back the mode chosen for an option gives the option. */
  lemma {:induction false} SelectRoundTrip(option: string)
    requires option in Options
    ensures OptionFor(Str(ApiModeFor(option))) == option
  {
    assert option == "immediate" || option == "scheduled" || option == "economic";
  }

  /** Same round trip through a record that reports the chosen mode. */
  lemma RecordRoundTrip(rec: Record, option: string)
    requires ModeReadable(rec) && option in Options
    requires Path(Obj(rec), ChargingPath("mode")) == Some(Str(ApiModeFor(option)))
    ensures CurrentOption(rec) == option
  {
    SelectRoundTrip(option);
  }

  /** Selecting an option sends nothing to the server; it only requests a refresh. */
  function SelectOption(vin: string, option: string): (r: seq<Action>)
    ensures Calls(r) == [] && r != [] && forall a :: a in r ==> a == RequestRefresh
  {
    var _ := ApiModeFor(option);
    [RequestRefresh]
  }

  /** The select is available iff the car is plugged (False when absent). */
  function SelectAvailable(rec: Record): (r: Json)
    requires ChargingReadable(rec)
    ensures r == PathOr(Obj(rec), ChargingPath("plugged"), Bool(false))
  {
    Plugged(rec)
  }
}
