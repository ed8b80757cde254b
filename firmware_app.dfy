/**
 * The shared state of the first firmware's application: the latest
 * readings, the display page, and whether the buzzer is enabled, behind
 * one mutex. The sensor tasks rewrite their own readings; the buttons and
 * the navigation timeout move between pages and toggle the buzzer on the
 * settings page.
 */
module FirmwareApp {
  import opened Common
  import Sps30Async

  /** The display pages, in the order Next walks them. */
  datatype Page = Basic | Pm | Voc | Settings
  {
    function Next(): Page
    {
      match this
      case Basic => Pm
      case Pm => Voc
      case Voc => Settings
      case Settings => Basic
    }

    function Prev(): Page
    {
      match this
      case Basic => Settings
      case Pm => Basic
      case Voc => Pm
      case Settings => Voc
    }
  }

  /** Next and Prev undo each other. */
  lemma NextPrevInverse(p: Page)
    ensures p.Next().Prev() == p
    ensures p.Prev().Next() == p
  {
  }

  /** Four steps of Next come back to the start page, and fewer never do. */
  lemma NextCycle(p: Page)
    ensures p.Next().Next().Next().Next() == p
    ensures p.Next() != p && p.Next().Next() != p && p.Next().Next().Next() != p
  {
  }

  datatype ButtonEvent = Esc | Ok | NextButton | PrevButton

  /**
   * The readings the application keeps, as its sensor tasks write them;
   * the record's own crate version is not part of this model.
   */
  datatype Readings = Readings(
    co2_concentration: F32, temperature: F32, humidity: F32,
    mass_pm1_0: F32, mass_pm2_5: F32, mass_pm4_0: F32, mass_pm10: F32,
    number_pm0_5: F32, number_pm1_0: F32, number_pm2_5: F32, number_pm4_0: F32, number_pm10: F32,
    typical_particulate_matter_size: F32, voc_index: bv16)

  const DEFAULT_READINGS: Readings := Readings(
    F32_ZERO, F32_ZERO, F32_ZERO, F32_ZERO, F32_ZERO, F32_ZERO, F32_ZERO,
    F32_ZERO, F32_ZERO, F32_ZERO, F32_ZERO, F32_ZERO, F32_ZERO, 0)

  datatype State = State(air_quality: Readings, page: Page, bzzz_enabled: bool)

  /**
   * The state after a button: Esc goes to the first page; Ok toggles the
   * buzzer, only on the settings page; Next and Prev step through the
   * pages. No button touches the readings, and only Ok the buzzer.
   */
  function Pressed(s: State, button: ButtonEvent): (r: State)
    ensures r.air_quality == s.air_quality
    ensures button == Esc ==> r.page == Basic && r.bzzz_enabled == s.bzzz_enabled
    ensures button == ButtonEvent.Ok ==> r.page == s.page && (r.bzzz_enabled <==> (s.page == Settings) != s.bzzz_enabled)
    ensures button == NextButton ==> r.page == s.page.Next() && r.bzzz_enabled == s.bzzz_enabled
    ensures button == PrevButton ==> r.page == s.page.Prev() && r.bzzz_enabled == s.bzzz_enabled
  {
    match button
    case Esc => s.(page := Basic)
    case Ok => if s.page == Settings then s.(bzzz_enabled := !s.bzzz_enabled) else s
    case NextButton => s.(page := s.page.Next())
    case PrevButton => s.(page := s.page.Prev())
  }

  /** Next then Prev, or Prev then Next, leave the state as it was. */
  lemma NextPrevPressedInverse(s: State)
    ensures Pressed(Pressed(s, NextButton), PrevButton) == s
    ensures Pressed(Pressed(s, PrevButton), NextButton) == s
  {
    NextPrevInverse(s.page);
  }

  /** Pressing Ok twice leaves the state as it was, on every page. */
  lemma OkTwice(s: State)
    ensures Pressed(Pressed(s, ButtonEvent.Ok), ButtonEvent.Ok) == s
  {
  }

  class App {
    var state: State

    /** The first state: no readings yet, the first page, the buzzer enabled. */
    constructor ()
      ensures state == State(DEFAULT_READINGS, Basic, true)
    {
      state := State(DEFAULT_READINGS, Basic, true);
    }

    method UpdateCo2(co2: F32, temperature: F32, humidity: F32)
      modifies this
      ensures state == old(state).(air_quality := old(state).air_quality.(
        co2_concentration := co2, temperature := temperature, humidity := humidity))
    {
      var s := state;
      s := s.(air_quality := s.air_quality.(co2_concentration := co2));
      s := s.(air_quality := s.air_quality.(temperature := temperature));
      s := s.(air_quality := s.air_quality.(humidity := humidity));
      state := s;
    }

    /** `update_pm`: the ten fields of an SPS30 measurement, in order. */
    method UpdatePm(air_info: Sps30Async.Measurement)
      modifies this
      ensures state == old(state).(air_quality := old(state).air_quality.(
        mass_pm1_0 := air_info.mass_pm1_0, mass_pm2_5 := air_info.mass_pm2_5,
        mass_pm4_0 := air_info.mass_pm4_0, mass_pm10 := air_info.mass_pm10,
        number_pm0_5 := air_info.number_pm0_5, number_pm1_0 := air_info.number_pm1_0,
        number_pm2_5 := air_info.number_pm2_5, number_pm4_0 := air_info.number_pm4_0,
        number_pm10 := air_info.number_pm10, typical_particulate_matter_size := air_info.typical_size))
    {
      var s := state;
      s := s.(air_quality := s.air_quality.(mass_pm1_0 := air_info.mass_pm1_0));
      s := s.(air_quality := s.air_quality.(mass_pm2_5 := air_info.mass_pm2_5));
      s := s.(air_quality := s.air_quality.(mass_pm4_0 := air_info.mass_pm4_0));
      s := s.(air_quality := s.air_quality.(mass_pm10 := air_info.mass_pm10));
      s := s.(air_quality := s.air_quality.(number_pm0_5 := air_info.number_pm0_5));
      s := s.(air_quality := s.air_quality.(number_pm1_0 := air_info.number_pm1_0));
      s := s.(air_quality := s.air_quality.(number_pm2_5 := air_info.number_pm2_5));
      s := s.(air_quality := s.air_quality.(number_pm4_0 := air_info.number_pm4_0));
      s := s.(air_quality := s.air_quality.(number_pm10 := air_info.number_pm10));
      s := s.(air_quality := s.air_quality.(typical_particulate_matter_size := air_info.typical_size));
      state := s;
    }

    method UpdateVoc(voc: bv16)
      modifies this
      ensures state == old(state).(air_quality := old(state).air_quality.(voc_index := voc))
    {
      state := state.(air_quality := state.air_quality.(voc_index := voc));
    }

    method SetPage(page: Page)
      modifies this
      ensures state == old(state).(page := page)
    {
      state := state.(page := page);
    }

    method SetBzzz(enabled: bool)
      modifies this
      ensures state == old(state).(bzzz_enabled := enabled)
    {
      state := state.(bzzz_enabled := enabled);
    }

    /** `button_pressed`: each button through the page and buzzer setters. */
    method ButtonPressed(button: ButtonEvent)
      modifies this
      ensures state == Pressed(old(state), button)
    {
      match button
      case Esc =>
        SetPage(Basic);
      case Ok =>
        if state.page == Settings {
          SetBzzz(!state.bzzz_enabled);
        }
      case NextButton =>
        SetPage(state.page.Next());
      case PrevButton =>
        SetPage(state.page.Prev());
    }

    /** The navigation timeout goes back to the first page. */
    method ButtonTimedOut()
      modifies this
      ensures state == old(state).(page := Basic)
      ensures state == Pressed(old(state), Esc)
    {
      SetPage(Basic);
    }
  }
}
