/** The three-step creation wizard of src/pages/Create.tsx and the token
    symbol its launch page shows. */
module CreateWizard {
  import opened Text
  import opened TokenMeta

  datatype Step = AppearanceStep | PersonalityStep | LaunchStep

  /** Position of a step in the wizard. */
  function Index(s: Step): nat {
    match s
    case AppearanceStep => 0
    case PersonalityStep => 1
    case LaunchStep => 2
  }

  /** `canProceedToLaunch`: the name has something besides whitespace. */
  predicate CanProceedToLaunch(name: string) {
    |Trim(name)| > 0
  }

  /** `handleNext`. */
  function Next(step: Step, name: string): Step {
    if step == AppearanceStep then PersonalityStep
    else if step == PersonalityStep && CanProceedToLaunch(name) then LaunchStep
    else step
  }

  /** `handleBack`. */
  function Back(step: Step): Step {
    if step == PersonalityStep then AppearanceStep
    else if step == LaunchStep then PersonalityStep
    else step
  }

  // ----- properties of the steps -----

  /** Next moves at most one step forward and Back at most one step back. */
  lemma StepsMoveByOne(step: Step, name: string)
    ensures Index(Next(step, name)) == Index(step) || Index(Next(step, name)) == Index(step) + 1
    ensures Index(Back(step)) == Index(step) || Index(Back(step)) + 1 == Index(step)
  {
  }

  /** Next leaves the appearance step unconditionally and the personality step
      exactly when the name is not blank; the launch step is final. */
  lemma NextMoves(step: Step, name: string)
    ensures Next(step, name) != step <==>
      step == AppearanceStep || (step == PersonalityStep && !AllWhitespace(name))
  {
  }

  /** Back undoes every Next that moved, so Back after Next from the
      appearance step is the appearance step again. */
  lemma BackUndoesNext(step: Step, name: string)
    requires Next(step, name) != step
    ensures Back(Next(step, name)) == step
  {
  }

  /** Back only stays put on the appearance step. */
  lemma BackMoves(step: Step)
    ensures Back(step) == step <==> step == AppearanceStep
  {
  }

  /** A name that lets the wizard reach the launch step passes the launch's
      "name is required" check, and its generated symbol passes both symbol
      checks. */
  lemma LaunchNamePasses(name: string)
    requires Next(PersonalityStep, name) == LaunchStep
    ensures ValidateMetadata(name, GenerateSymbol(name)) != Rejected("Token name is required")
    ensures ValidateMetadata(name, GenerateSymbol(name)).Accepted? <==> |name| <= 32
  {
    GeneratedSymbolPasses(name);
  }

  // ----- the symbol on the launch page -----

  /** `replace(/\s/g, '')`. */
  function DropWhitespace(s: string): (r: string)
    ensures |r| <= |s|
    ensures forall i :: 0 <= i < |r| ==> !IsWhitespace(r[i])
  {
    if |s| == 0 then ""
    else (if IsWhitespace(s[0]) then [] else [s[0]]) + DropWhitespace(s[1..])
  }

  /** The symbol the launch page shows, as written: the name upper-cased
      with whitespace removed and cut to six characters.  Punctuation and
      other characters the token symbol drops are kept, and there is no "PET"
      fallback. */
  function DisplayedSymbol(name: string): (r: string)
    ensures |r| <= 6
    ensures forall i :: 0 <= i < |r| ==> !IsWhitespace(r[i]) && !IsLowerLetter(r[i])
  {
    var u := ToUpper(name);
    var d := DropWhitespace(u);
    DropWhitespaceKeepsUpper(u);
    Take(d, 6)
  }

  lemma {:induction false} DropWhitespaceKeepsUpper(s: string)
    requires forall i :: 0 <= i < |s| ==> !IsLowerLetter(s[i])
    ensures forall i :: 0 <= i < |DropWhitespace(s)| ==> !IsLowerLetter(DropWhitespace(s)[i])
  {
    if |s| > 0 {
      DropWhitespaceKeepsUpper(s[1..]);
    }
  }

  /** The displayed symbol differs from the minted one for a name with
      punctuation. */
  lemma DisplayedSymbolMismatch()
    ensures DisplayedSymbol("Mr. Bean") == "MR.BEA"
    ensures GenerateSymbol("Mr. Bean") == "MRBEAN"
  {
    MrBeanUpper();
    MrBeanDrop();
    MrBeanKeep();
    assert Take("MR.BEAN", 6) == "MR.BEA";
    assert Take("MRBEAN", 6) == "MRBEAN";
  }

  lemma MrBeanUpper()
    ensures ToUpper("Mr. Bean") == "MR. BEAN"
  {
    var u := ToUpper("Mr. Bean");
    assert u[1] == 'R' && u[5] == 'E' && u[6] == 'A' && u[7] == 'N';
  }

  lemma MrBeanDrop()
    ensures DropWhitespace("MR. BEAN") == "MR.BEAN"
  {
  }

  lemma MrBeanKeep()
    ensures KeepSymbolChars("MR. BEAN") == "MRBEAN"
  {
  }

  /** The launch page with the intended symbol, the one the token is minted
      with: still upper-case, free of whitespace and at most six characters,
      and never empty. */
  function ShownSymbol(name: string): (r: string)
    ensures 0 < |r| <= 6
    ensures forall i :: 0 <= i < |r| ==> !IsWhitespace(r[i]) && !IsLowerLetter(r[i])
  {
    GenerateSymbol(name)
  }

  /** For names made of ASCII letters, digits and whitespace with at least one
      letter or digit, the page as written already shows the minted
      symbol. */
  lemma DisplayedSymbolAgreesOnPlainNames(name: string)
    requires forall i :: 0 <= i < |name| ==> IsAsciiAlnum(name[i]) || IsWhitespace(name[i])
    requires exists i :: 0 <= i < |name| && IsAsciiAlnum(name[i])
    ensures DisplayedSymbol(name) == ShownSymbol(name)
  {
    var u := ToUpper(name);
    assert forall i :: 0 <= i < |u| ==> IsSymbolChar(u[i]) || IsWhitespace(u[i]);
    FiltersAgree(u);
    var i :| 0 <= i < |name| && IsAsciiAlnum(name[i]);
    assert IsSymbolChar(u[i]);
    KeepSymbolCharsEmpty(u);
  }

  /** On symbol characters and whitespace the two filters coincide. */
  lemma {:induction false} FiltersAgree(s: string)
    requires forall i :: 0 <= i < |s| ==> IsSymbolChar(s[i]) || IsWhitespace(s[i])
    ensures DropWhitespace(s) == KeepSymbolChars(s)
  {
    if |s| > 0 {
      FiltersAgree(s[1..]);
    }
  }
}
