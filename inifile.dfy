/**
 * The parameter-file object the campaign helpers edit. Its class is a
 * Python `configparser.ConfigParser`; only the operations the helpers call
 * are modelled, with the standard library's rules: the `DEFAULT` section is
 * held apart from the others, `has_section("DEFAULT")` is false, `set` and
 * `remove_option` on `DEFAULT` (or on an empty section name) act on the
 * defaults, `add_section` refuses `DEFAULT` and existing names, and `get`
 * falls back to the defaults for an option the section lacks.
 */
module Inifiles {
  import opened Wrappers

  const DefaultSection := "DEFAULT"

  /** The exceptions the modelled code can raise. */
  datatype Exc = ValueError | IndexError | NoSectionError | NoOptionError | DuplicateSectionError

  /** How a call ends: normally, or by raising. */
  datatype Outcome = Done | Raised(exc: Exc)

  /** The contents of a parameter file: named sections of options, and the defaults. */
  datatype Ini = Ini(sections: map<string, map<string, string>>, defaults: map<string, string>)

  /** `set` and `remove_option` act on the defaults for these section names. */
  predicate NamesDefaults(section: string) {
    section == "" || section == DefaultSection
  }

  /** `get(section, option)`: the section's own value, else the default; NoSectionError for an unknown section other than DEFAULT. */
  function GetOption(ini: Ini, section: string, option: string): (r: Result<string, Exc>)
    ensures r.Err? ==> r.error == NoSectionError || r.error == NoOptionError
    ensures r.Err? && r.error == NoSectionError <==> section !in ini.sections && section != DefaultSection
    ensures r.Ok? <==> (section in ini.sections && option in ini.sections[section])
                       || ((section in ini.sections || section == DefaultSection) && option in ini.defaults)
  {
    if section !in ini.sections && section != DefaultSection then Err(NoSectionError)
    else
      var own := if section in ini.sections then ini.sections[section] else map[];
      if option in own then Ok(own[option])
      else if option in ini.defaults then Ok(ini.defaults[option])
      else Err(NoOptionError)
  }

  /** `set(section, option, value)`. */
  function SetOption(ini: Ini, section: string, option: string, value: string): (r: Result<Ini, Exc>)
    ensures r.Err? <==> !NamesDefaults(section) && section !in ini.sections
    ensures r.Err? ==> r.error == NoSectionError
    ensures r.Ok? ==> r.value.sections.Keys == ini.sections.Keys
  {
    if NamesDefaults(section) then Ok(ini.(defaults := ini.defaults[option := value]))
    else if section !in ini.sections then Err(NoSectionError)
    else Ok(ini.(sections := ini.sections[section := ini.sections[section][option := value]]))
  }

  /** `add_section(section)`. */
  function AddSectionTo(ini: Ini, section: string): (r: Result<Ini, Exc>)
    ensures r.Ok? <==> section != DefaultSection && section !in ini.sections
    ensures r.Err? ==> r.error == (if section == DefaultSection then ValueError else DuplicateSectionError)
    ensures r.Ok? ==> && r.value.sections.Keys == ini.sections.Keys + {section}
                      && r.value.sections[section] == map[]
                      && r.value.defaults == ini.defaults
                      && forall s :: s in ini.sections ==> r.value.sections[s] == ini.sections[s]
  {
    if section == DefaultSection then Err(ValueError)
    else if section in ini.sections then Err(DuplicateSectionError)
    else Ok(ini.(sections := ini.sections[section := map[]]))
  }

  /** `remove_option(section, option)`: the new contents and whether the option was there. */
  function RemoveOptionFrom(ini: Ini, section: string, option: string): (r: Result<(Ini, bool), Exc>)
    ensures r.Err? <==> !NamesDefaults(section) && section !in ini.sections
    ensures r.Err? ==> r.error == NoSectionError
    ensures r.Ok? && !NamesDefaults(section) ==>
      && r.value.1 == (option in ini.sections[section])
      && r.value.0.sections.Keys == ini.sections.Keys
      && r.value.0.sections[section].Keys == ini.sections[section].Keys - {option}
    ensures r.Ok? && !NamesDefaults(section) ==>
      r.value.0 == ini.(sections := ini.sections[section := ini.sections[section] - {option}])
    ensures r.Ok? && NamesDefaults(section) ==>
      r.value == (ini.(defaults := ini.defaults - {option}), option in ini.defaults)
  {
    if NamesDefaults(section) then Ok((ini.(defaults := ini.defaults - {option}), option in ini.defaults))
    else if section !in ini.sections then Err(NoSectionError)
    else Ok((ini.(sections := ini.sections[section := ini.sections[section] - {option}]), option in ini.sections[section]))
  }

  /** `remove_section(section)`: the new contents and whether the section was there. */
  function RemoveSectionFrom(ini: Ini, section: string): (r: (Ini, bool))
    ensures r.1 == (section in ini.sections)
    ensures r.0.sections.Keys == ini.sections.Keys - {section}
    ensures r.0.defaults == ini.defaults
    ensures r.0 == ini.(sections := ini.sections - {section})
  {
    (ini.(sections := ini.sections - {section}), section in ini.sections)
  }

  /** A value set in a section that exists reads back from it, and every other option of every section reads as before. */
  lemma SetThenGet(ini: Ini, section: string, option: string, value: string)
    requires section in ini.sections && !NamesDefaults(section)
    ensures SetOption(ini, section, option, value).Ok?
    ensures var after := SetOption(ini, section, option, value).value;
      && GetOption(after, section, option) == Ok(value)
      && forall s, o :: s != section || o != option ==> GetOption(after, s, o) == GetOption(ini, s, o)
  {
  }

  /** A value set in DEFAULT reads back from every section that does not hold the option itself. */
  lemma SetDefaultThenGet(ini: Ini, option: string, value: string, section: string)
    requires section in ini.sections ==> option !in ini.sections[section]
    requires section in ini.sections || section == DefaultSection
    ensures SetOption(ini, DefaultSection, option, value).Ok?
    ensures GetOption(SetOption(ini, DefaultSection, option, value).value, section, option) == Ok(value)
  {
  }

  /** The effect of a call that may raise: on success the new contents, on an exception none. */
  predicate Performs(out: Outcome, before: Ini, after: Ini, r: Result<Ini, Exc>) {
    match r
    case Ok(v) => out == Done && after == v
    case Err(e) => out == Raised(e) && after == before
  }

  /** A parameter file in memory; its methods change it in place. */
  class Inifile {
    var sections: map<string, map<string, string>>
    var defaults: map<string, string>

    constructor(contents: Ini)
      ensures State() == contents
    {
      sections := contents.sections;
      defaults := contents.defaults;
    }

    function State(): Ini
      reads this
    {
      Ini(sections, defaults)
    }

    /** `has_section(section)`: DEFAULT is not counted; a section it reports cannot be added again, and any other name but DEFAULT can. */
    function HasSection(section: string): (r: bool)
      reads this
      ensures r ==> AddSectionTo(State(), section).Err?
      ensures !r ==> (AddSectionTo(State(), section).Ok? <==> section != DefaultSection)
    {
      section in sections
    }

    /** `get(section, option)`, also written `ini[section, option]`. */
    function Get(section: string, option: string): (r: Result<string, Exc>)
      reads this
      ensures r == Err(NoSectionError) <==> section !in sections && section != DefaultSection
      ensures r.Ok? && section in sections && option in sections[section] ==> r.value == sections[section][option]
      ensures r.Ok? && (section !in sections || option !in sections[section]) ==>
        option in defaults && r.value == defaults[option]
      ensures r.Err? && r.error != NoSectionError ==> r.error == NoOptionError && option !in defaults
    {
      GetOption(State(), section, option)
    }

    method Set(section: string, option: string, value: string) returns (out: Outcome)
      modifies this
      ensures Performs(out, old(State()), State(), SetOption(old(State()), section, option, value))
    {
      if NamesDefaults(section) {
        defaults := defaults[option := value];
        return Done;
      }
      if section !in sections {
        return Raised(NoSectionError);
      }
      sections := sections[section := sections[section][option := value]];
      return Done;
    }

    method AddSection(section: string) returns (out: Outcome)
      modifies this
      ensures Performs(out, old(State()), State(), AddSectionTo(old(State()), section))
    {
      if section == DefaultSection {
        return Raised(ValueError);
      }
      if section in sections {
        return Raised(DuplicateSectionError);
      }
      sections := sections[section := map[]];
      return Done;
    }

    method RemoveOption(section: string, option: string) returns (out: Outcome, existed: bool)
      modifies this
      ensures var r := RemoveOptionFrom(old(State()), section, option);
        && (r.Err? ==> out == Raised(r.error) && State() == old(State()))
        && (r.Ok? ==> out == Done && (State(), existed) == r.value)
    {
      if NamesDefaults(section) {
        existed := option in defaults;
        defaults := defaults - {option};
        return Done, existed;
      }
      if section !in sections {
        return Raised(NoSectionError), false;
      }
      existed := option in sections[section];
      sections := sections[section := sections[section] - {option}];
      out := Done;
    }

    method RemoveSection(section: string) returns (existed: bool)
      modifies this
      ensures (State(), existed) == RemoveSectionFrom(old(State()), section)
    {
      existed := section in sections;
      sections := sections - {section};
    }
  }
}
