/** The ICAO type designators that classify.py knows, grouped by manufacturer
    as in src/analysis/classify.py:24-122; each category's set is the union
    of its groups. */
module TypeCodes {

  /** Every designator in the tables has at least three characters. */
  type KnownCode = c: string | |c| >= 3 witness "R22"

  /** Robinson */
  const RobinsonHelicopterTypes: set<KnownCode> := {
    "R22", "R44", "R66"
  }

  /** Airbus Helicopters (formerly Eurocopter) */
  const AirbusHelicopterTypes: set<KnownCode> := {
    "EC20", "EC30", "EC35", "EC45", "EC55", "EC75", "AS50", "AS55", "AS65", "AS32", "AS33",
    "AS35", "AS55", "AS65", "H125", "H130", "H135", "H145", "H155", "H160", "H175", "H215",
    "H225", "EC25"
  }

  /** Bell */
  const BellHelicopterTypes: set<KnownCode> := {
    "B06", "B06T", "B204", "B205", "B206", "B209", "B212", "B214", "B222", "B230", "B407",
    "B412", "B427", "B429", "B430", "B505", "B525"
  }

  /** Sikorsky */
  const SikorskyHelicopterTypes: set<KnownCode> := {
    "S76", "S61", "S70", "S92", "S58", "S64", "S76B", "S76C", "S76D", "H60", "S300"
  }

  /** Leonardo (AgustaWestland) */
  const LeonardoHelicopterTypes: set<KnownCode> := {
    "A109", "A119", "A139", "A149", "A169", "A189", "AW09", "AW09", "AW39", "AW69", "AW89"
  }

  /** MD Helicopters */
  const MDHelicopterTypes: set<KnownCode> := {
    "MD52", "MD60", "EXPL", "NOTR", "H369", "H500"
  }

  /** Enstrom */
  const EnstromHelicopterTypes: set<KnownCode> := {
    "EN28", "EN48"
  }

  /** Schweizer / Hughes */
  const SchweizerHughesHelicopterTypes: set<KnownCode> := {
    "S269", "S300", "S333", "H269"
  }

  /** Generic helicopter designators */
  const GenericHelicopterTypes: set<KnownCode> := {
    "HELI"
  }

  const HelicopterTypes: set<KnownCode> :=
    RobinsonHelicopterTypes
    + AirbusHelicopterTypes
    + BellHelicopterTypes
    + SikorskyHelicopterTypes
    + LeonardoHelicopterTypes
    + MDHelicopterTypes
    + EnstromHelicopterTypes
    + SchweizerHughesHelicopterTypes
    + GenericHelicopterTypes

  /** Gulfstream */
  const GulfstreamJetTypes: set<KnownCode> := {
    "GLF2", "GLF3", "GLF4", "GLF5", "GLF6", "GLEX", "G150", "G200", "G280", "G350", "G450",
    "G500", "G550", "G600", "G650", "G700", "G800"
  }

  /** Bombardier */
  const BombardierJetTypes: set<KnownCode> := {
    "CL30", "CL35", "CL60", "BD70", "GL5T", "GL6T", "GL7T", "GLEX", "LJ23", "LJ24", "LJ25",
    "LJ28", "LJ31", "LJ35", "LJ36", "LJ40", "LJ45", "LJ55", "LJ60", "LJ70", "LJ75"
  }

  /** Cessna Citation */
  const CessnaCitationJetTypes: set<KnownCode> := {
    "C500", "C501", "C510", "C525", "C526", "C550", "C551", "C560", "C56X", "C650", "C680",
    "C700", "C750"
  }

  /** Dassault Falcon */
  const DassaultFalconJetTypes: set<KnownCode> := {
    "FA10", "FA20", "FA50", "FA7X", "FA8X", "F900", "F2TH", "FA6X"
  }

  /** Embraer */
  const EmbraerJetTypes: set<KnownCode> := {
    "E135", "E145", "E170", "E190", "E195", "E50P", "E55P", "E35L", "E545", "E550"
  }

  /** Pilatus */
  const PilatusJetTypes: set<KnownCode> := {
    "PC24"
  }

  /** Honda */
  const HondaJetTypes: set<KnownCode> := {
    "HDJT"
  }

  /** Eclipse */
  const EclipseJetTypes: set<KnownCode> := {
    "EA50"
  }

  /** Cirrus Vision */
  const CirrusVisionJetTypes: set<KnownCode> := {
    "SF50"
  }

  /** Textron/Beechcraft */
  const TextronBeechcraftJetTypes: set<KnownCode> := {
    "PRM1", "H25A", "H25B", "H25C"
  }

  /** Generic */
  const GenericJetTypes: set<KnownCode> := {
    "AJET"
  }

  const JetTypes: set<KnownCode> :=
    GulfstreamJetTypes
    + BombardierJetTypes
    + CessnaCitationJetTypes
    + DassaultFalconJetTypes
    + EmbraerJetTypes
    + PilatusJetTypes
    + HondaJetTypes
    + EclipseJetTypes
    + CirrusVisionJetTypes
    + TextronBeechcraftJetTypes
    + GenericJetTypes

  /** Cessna piston */
  const CessnaPistonFixedWingTypes: set<KnownCode> := {
    "C150", "C152", "C170", "C172", "C177", "C180", "C182", "C185", "C206", "C207", "C210",
    "C310", "C320", "C337", "C340", "C402", "C414"
  }

  /** Cessna turboprop */
  const CessnaTurbopropFixedWingTypes: set<KnownCode> := {
    "C208", "C441"
  }

  /** Piper */
  const PiperFixedWingTypes: set<KnownCode> := {
    "P28A", "P28B", "P28R", "P28T", "PA18", "PA22", "PA23", "PA24", "PA27", "PA28", "PA30",
    "PA31", "PA32", "PA34", "PA38", "PA44", "PA46", "PA60", "PC12"
  }

  /** Beechcraft */
  const BeechcraftFixedWingTypes: set<KnownCode> := {
    "BE33", "BE35", "BE36", "BE55", "BE58", "BE76", "BE9L", "B350", "BE20", "BE30", "B200",
    "B300"
  }

  /** Mooney */
  const MooneyFixedWingTypes: set<KnownCode> := {
    "M20J", "M20K", "M20P", "M20R", "M20T", "M20U"
  }

  /** Cirrus */
  const CirrusFixedWingTypes: set<KnownCode> := {
    "SR20", "SR22"
  }

  /** Diamond */
  const DiamondFixedWingTypes: set<KnownCode> := {
    "DA20", "DA40", "DA42", "DA50", "DA62"
  }

  /** Pilatus */
  const PilatusFixedWingTypes: set<KnownCode> := {
    "PC12"
  }

  /** TBM */
  const TBMFixedWingTypes: set<KnownCode> := {
    "TBM7", "TBM8", "TBM9", "TBM"
  }

  /** de Havilland */
  const DeHavillandFixedWingTypes: set<KnownCode> := {
    "DHC2", "DHC3", "DHC6"
  }

  /** King Air */
  const KingAirFixedWingTypes: set<KnownCode> := {
    "BE20", "B200", "B300", "B350"
  }

  const FixedWingTypes: set<KnownCode> :=
    CessnaPistonFixedWingTypes
    + CessnaTurbopropFixedWingTypes
    + PiperFixedWingTypes
    + BeechcraftFixedWingTypes
    + MooneyFixedWingTypes
    + CirrusFixedWingTypes
    + DiamondFixedWingTypes
    + PilatusFixedWingTypes
    + TBMFixedWingTypes
    + DeHavillandFixedWingTypes
    + KingAirFixedWingTypes
}
