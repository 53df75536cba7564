/** The simulation submit form (src/routes/simulate.tsx): file checks, the
    simulation-time input, the submit guards and the payload sent to the
    server. */
module Simulate {
  import opened Wrappers
  import opened Strings
  import opened JsNumber

  /** A browser `File`: its name and size in bytes. */
  datatype File = File(name: string, size: int)

  datatype FileKind = Protein | Ligand

  const MaxFileSize: int := 10 * 1024 * 1024

  /** `name.toLowerCase().substring(name.lastIndexOf("."))`: from the last
      '.' on, or the whole name when there is none (substring clamps -1 to 0). */
  function Extension(name: string): (r: string)
    ensures LastIndexOf(name, '.') >= 0 ==> r == ToLower(name)[LastIndexOf(name, '.')..]
    ensures LastIndexOf(name, '.') < 0 ==> r == ToLower(name)
  {
    var i := LastIndexOf(name, '.');
    ToLower(name)[if i < 0 then 0 else i..]
  }

  function ValidExtension(kind: FileKind): string
  {
    if kind == Protein then ".pdb" else ".sdf"
  }

  /** What `handleFileUpload` decides about a file. */
  datatype UploadCheck = TooLarge | WrongType | Accepted

  function CheckFile(file: File, kind: FileKind): (r: UploadCheck)
    ensures r == TooLarge <==> file.size > MaxFileSize
    ensures r == Accepted <==> file.size <= MaxFileSize && Extension(file.name) == ValidExtension(kind)
  {
    if file.size > MaxFileSize then TooLarge
    else if Extension(file.name) != ValidExtension(kind) then WrongType
    else Accepted
  }

  /** A name ending in the expected extension, in any letter case and after
      any other dots, is accepted; exactly 10 MiB is still accepted. */
  lemma ExtensionIgnoresCase(base: string, ext: string)
    requires |ext| == 3 && '.' !in ext
    ensures Extension(base + "." + ext) == "." + ToLower(ext)
  {
    var name := base + "." + ext;
    assert name[|base|] == '.';
    assert forall j :: |base| < j < |name| ==> name[j] == ext[j - |base| - 1];
    var i := LastIndexOf(name, '.');
    assert i == |base|;
    assert ToLower(name)[i..] == "." + ToLower(ext);
  }

  lemma UploadByExtension(base: string, ext: string, size: int, kind: FileKind)
    requires |ext| == 3 && '.' !in ext && 0 <= size <= MaxFileSize
    ensures CheckFile(File(base + "." + ext, size), kind) == Accepted <==> "." + ToLower(ext) == ValidExtension(kind)
    ensures CheckFile(File(base + "." + ext, MaxFileSize + 1), kind) == TooLarge
  {
    ExtensionIgnoresCase(base, ext);
  }

  /** An upper-case ".PDB" is a protein file. */
  lemma UpperCaseProtein(base: string)
    ensures CheckFile(File(base + ".PDB", MaxFileSize), Protein) == Accepted
  {
    assert base + ".PDB" == base + "." + "PDB";
    ExtensionIgnoresCase(base, "PDB");
    PdbLowered();
  }

  lemma PdbLowered()
    ensures "." + ToLower("PDB") == ValidExtension(Protein)
  {
    var lowered := ToLower("PDB");
    assert lowered[0] == 'p' && lowered[1] == 'd' && lowered[2] == 'b';
  }

  /** A name without a dot has no extension and is refused for both kinds. */
  lemma NoDotRejected(file: File, kind: FileKind)
    requires '.' !in file.name && file.size <= MaxFileSize
    ensures CheckFile(file, kind) == WrongType
  {
    var name := file.name;
    var i := LastIndexOf(name, '.');
    assert i < 0;
    var e := Extension(name);
    assert e == ToLower(name);
    assert |e| > 0 ==> e[0] == LowerChar(name[0]) && name[0] != '.';
    assert ValidExtension(kind)[0] == '.';
  }

  /** `Number.parseInt(value, 10) || 1` for the simulation time. */
  function SimulationTimeInput(input: string): int
  {
    ParsedOr(ParseInt(input), 1)
  }

  /** Empty or zero entries become 1; a number entered is taken as is. */
  lemma SimulationTimeReads(n: nat)
    ensures SimulationTimeInput("") == 1
    ensures n > 0 ==> SimulationTimeInput(Decimal(n)) == n
    ensures SimulationTimeInput(Decimal(0)) == 1
  {
    ParseIntNoDigits("");
    ParseIntDecimal(n);
    ParseIntDecimal(0);
  }

  /** The first submit check that fails, in the order the handler runs
      them. `credits` is None when nobody is signed in. */
  datatype SubmitCheck = NotSignedIn | NoProteinFile | InsufficientCredits | Proceed

  function CheckSubmit(credits: Option<Num>, hasProtein: bool, creditsNeeded: int): (r: SubmitCheck)
    ensures r == NotSignedIn <==> credits.None?
    ensures r == NoProteinFile <==> credits.Some? && !hasProtein
    ensures r == InsufficientCredits <==> credits.Some? && hasProtein && Less(OrZero(credits.value), Of(creditsNeeded))
    ensures r == Proceed <==> credits.Some? && hasProtein && !Less(OrZero(credits.value), Of(creditsNeeded))
  {
    if credits.None? then NotSignedIn
    else if !hasProtein then NoProteinFile
    else if Less(OrZero(credits.value), Of(creditsNeeded)) then InsufficientCredits
    else Proceed
  }

  /** A missing or NaN balance counts as zero, so it passes only for a
      non-positive cost; an exact balance is enough. */
  lemma CreditCheckExamples(needed: int)
    ensures CheckSubmit(Some(NaN), true, needed) == Proceed <==> needed <= 0
    ensures CheckSubmit(Some(Of(needed)), true, needed) == Proceed
    ensures needed > 0 ==> CheckSubmit(Some(Of(needed - 1)), true, needed) == InsufficientCredits
  {
  }

  datatype Equilibration =
    | Enabled(time: int, temperature: int, pressure: int, timestep: int)
    | Disabled

  datatype Payload = Payload(
    name: string, temperature: int, duration: int, timestep: int, ensemble: string,
    equilibration: Equilibration, pdbFile: string, sdfFile: Option<string>, creditsUsed: int)

  /** The toasts and navigations the form produces. */
  datatype Effect =
    | Toast(message: string)
    | Navigate(path: string)

  /** The form fields that only their own inputs change: the title, the
      simulation parameters other than its time, and the equilibration
      settings. */
  datatype Settings = Settings(
    title: string, temperature: int, pressure: int, timestep: int,
    enableEquilibration: bool, equilibrationTime: int, equilibrationTemperature: int,
    equilibrationPressure: int, equilibrationTimestep: int)

  /** The form state of the simulate page. */
  class SimulateForm {
    var proteinFile: Option<File>
    var ligandFile: Option<File>
    var title: string
    var simulationTime: int
    var temperature: int
    var pressure: int
    var timestep: int
    var enableEquilibration: bool
    var equilibrationTime: int
    var equilibrationTemperature: int
    var equilibrationPressure: int
    var equilibrationTimestep: int
    var isSubmitting: bool
    var effects: seq<Effect>

    constructor ()
      ensures proteinFile.None? && ligandFile.None? && title == ""
      ensures simulationTime == 100 && temperature == 300 && pressure == 1 && timestep == 2
      ensures enableEquilibration
      ensures equilibrationTime == 10 && equilibrationTemperature == 300
      ensures equilibrationPressure == 1 && equilibrationTimestep == 2
      ensures !isSubmitting && effects == []
    {
      proteinFile := None;
      ligandFile := None;
      title := "";
      simulationTime := 100;
      temperature := 300;
      pressure := 1;
      timestep := 2;
      enableEquilibration := true;
      equilibrationTime := 10;
      equilibrationTemperature := 300;
      equilibrationPressure := 1;
      equilibrationTimestep := 2;
      isSubmitting := false;
      effects := [];
    }

    function CurrentSettings(): Settings
      reads this
    {
      Settings(title, temperature, pressure, timestep, enableEquilibration, equilibrationTime,
               equilibrationTemperature, equilibrationPressure, equilibrationTimestep)
    }

    /** `creditsNeeded`: one credit per unit of simulation time. */
    function CreditsNeeded(): int
      reads this
    {
      simulationTime
    }

    /** The `equilibration` field of the payload. */
    function EquilibrationPayload(): (r: Equilibration)
      reads this
      ensures enableEquilibration ==> r == Enabled(equilibrationTime, equilibrationTemperature, equilibrationPressure, equilibrationTimestep)
      ensures !enableEquilibration ==> r == Disabled
    {
      if enableEquilibration then
        Enabled(equilibrationTime, equilibrationTemperature, equilibrationPressure, equilibrationTimestep)
      else Disabled
    }

    /** The argument of `createSimulation` built from the form as it stands. */
    function SubmitPayload(): (p: Payload)
      requires proteinFile.Some?
      reads this
      ensures p.name == title && p.duration == simulationTime && p.creditsUsed == CreditsNeeded()
      ensures p.pdbFile == proteinFile.value.name
      ensures p.sdfFile.Some? <==> ligandFile.Some?
      ensures ligandFile.Some? ==> p.sdfFile == Some(ligandFile.value.name)
      ensures p.temperature == temperature && p.timestep == timestep && p.ensemble == "NVT"
      ensures p.equilibration == EquilibrationPayload()
    {
      Payload(title, temperature, simulationTime, timestep, "NVT", EquilibrationPayload(),
              proteinFile.value.name,
              if ligandFile.Some? then Some(ligandFile.value.name) else None,
              CreditsNeeded())
    }

    /** `handleFileUpload(file, kind)`: a rejected file changes no slot; an
        accepted one replaces only the slot of its kind. */
    method HandleFileUpload(file: File, kind: FileKind)
      modifies this
      ensures CheckFile(file, kind) != Accepted ==> proteinFile == old(proteinFile) && ligandFile == old(ligandFile)
      ensures CheckFile(file, kind) == Accepted && kind == Protein ==>
        proteinFile == Some(file) && ligandFile == old(ligandFile)
      ensures CheckFile(file, kind) == Accepted && kind == Ligand ==>
        ligandFile == Some(file) && proteinFile == old(proteinFile)
      ensures CheckFile(file, kind) == TooLarge ==> effects == old(effects) + [Toast("File size must be less than 10MB")]
      ensures CheckFile(file, kind) == WrongType ==>
        effects == old(effects) + [Toast("Please upload a " + ValidExtension(kind) + " file")]
      ensures CheckFile(file, kind) == Accepted && kind == Protein ==>
        effects == old(effects) + [Toast("Protein file uploaded successfully")]
      ensures CheckFile(file, kind) == Accepted && kind == Ligand ==>
        effects == old(effects) + [Toast("Ligand file uploaded successfully")]
      ensures CurrentSettings() == old(CurrentSettings())
      ensures simulationTime == old(simulationTime) && isSubmitting == old(isSubmitting)
    {
      if file.size > MaxFileSize {
        effects := effects + [Toast("File size must be less than 10MB")];
        return;
      }
      var valid := ValidExtension(kind);
      var extension := Extension(file.name);
      if extension != valid {
        effects := effects + [Toast("Please upload a " + valid + " file")];
        return;
      }
      if kind == Protein {
        proteinFile := Some(file);
        effects := effects + [Toast("Protein file uploaded successfully")];
      } else {
        ligandFile := Some(file);
        effects := effects + [Toast("Ligand file uploaded successfully")];
      }
    }

    /** The simulation-time field. */
    method OnSimulationTime(input: string)
      modifies this
      ensures simulationTime == SimulationTimeInput(input)
      ensures CreditsNeeded() == SimulationTimeInput(input)
      ensures proteinFile == old(proteinFile) && ligandFile == old(ligandFile) && effects == old(effects)
      ensures CurrentSettings() == old(CurrentSettings()) && isSubmitting == old(isSubmitting)
    {
      simulationTime := SimulationTimeInput(input);
    }

    /** `handleSubmit`: `credits` is the signed-in user's balance (None for no
        user) and `create` whether the server accepted the call; `calls`
        lists the calls made.  The client-side debit that follows a success
        goes to a function that only logs, so no balance changes here. */
    method HandleSubmit(credits: Option<Num>, create: Payload -> bool) returns (calls: seq<Payload>)
      modifies this
      ensures proteinFile == old(proteinFile) && ligandFile == old(ligandFile) && simulationTime == old(simulationTime)
      ensures CurrentSettings() == old(CurrentSettings())
      ensures CheckSubmit(credits, proteinFile.Some?, CreditsNeeded()) != Proceed ==>
        calls == [] && isSubmitting == old(isSubmitting)
      ensures CheckSubmit(credits, proteinFile.Some?, CreditsNeeded()) == NotSignedIn ==>
        effects == old(effects) + [Toast("Please sign in to start a simulation"), Navigate("/auth")]
      ensures CheckSubmit(credits, proteinFile.Some?, CreditsNeeded()) == NoProteinFile ==>
        effects == old(effects) + [Toast("Please upload a protein file")]
      ensures CheckSubmit(credits, proteinFile.Some?, CreditsNeeded()) == InsufficientCredits ==>
        |effects| == |old(effects)| + 2 && effects[|effects| - 1] == Navigate("/pricing")
      ensures CheckSubmit(credits, proteinFile.Some?, CreditsNeeded()) == Proceed ==>
        && calls == [old(SubmitPayload())]
        && !isSubmitting
        && (create(calls[0]) ==> effects == old(effects) + [Toast("Simulation started successfully!"), Navigate("/jobs")])
        && (!create(calls[0]) ==> effects == old(effects) + [Toast("Failed to start simulation. Please try again.")])
    {
      if credits.None? {
        effects := effects + [Toast("Please sign in to start a simulation"), Navigate("/auth")];
        return [];
      }
      if proteinFile.None? {
        effects := effects + [Toast("Please upload a protein file")];
        return [];
      }
      var needed := CreditsNeeded();
      if Less(OrZero(credits.value), Of(needed)) {
        // A placeholder for the source's message, which also names the cost and the balance.
        effects := effects + [Toast("Insufficient credits"), Navigate("/pricing")];
        return [];
      }
      isSubmitting := true;
      var payload := Payload(title, temperature, simulationTime, timestep, "NVT", EquilibrationPayload(),
                             proteinFile.value.name,
                             if ligandFile.Some? then Some(ligandFile.value.name) else None,
                             needed);
      calls := [payload];
      if create(payload) {
        effects := effects + [Toast("Simulation started successfully!"), Navigate("/jobs")];
      } else {
        effects := effects + [Toast("Failed to start simulation. Please try again.")];
      }
      isSubmitting := false;
    }
  }
}
