/** The pure parts of token creation in src/services/pumpfun.ts: the symbol
    and description built from a pet, and the metadata checks `launchToken`
    runs before uploading. */
module TokenMeta {
  import opened Text
  import opened PetTypes

  // ----- the symbol -----

  /** A character the symbol keeps: `[A-Z0-9]`. */
  predicate IsSymbolChar(c: char) {
    IsUpperLetter(c) || IsDigit(c)
  }

  predicate IsAsciiAlnum(c: char) {
    IsUpperLetter(c) || IsLowerLetter(c) || IsDigit(c)
  }

  /** `replace(/[^A-Z0-9]/g, '')`. */
  function KeepSymbolChars(s: string): (r: string)
    ensures |r| <= |s|
    ensures forall i :: 0 <= i < |r| ==> IsSymbolChar(r[i])
  {
    if |s| == 0 then ""
    else (if IsSymbolChar(s[0]) then [s[0]] else []) + KeepSymbolChars(s[1..])
  }

  /** `generateSymbol`: the name upper-cased, stripped to `[A-Z0-9]`, cut to
      six characters, or "PET" when nothing is left. */
  function GenerateSymbol(name: string): (r: string)
    ensures 0 < |r| <= 6
    ensures forall i :: 0 <= i < |r| ==> IsSymbolChar(r[i])
  {
    var kept := Take(KeepSymbolChars(ToUpper(name)), 6);
    if kept == "" then "PET" else kept
  }

  /** The filter keeps exactly the symbol characters, in order: it is the
      identity on a string made only of them and empty on one with none. */
  lemma {:induction false} KeepSymbolCharsEmpty(s: string)
    ensures KeepSymbolChars(s) == "" <==> forall i :: 0 <= i < |s| ==> !IsSymbolChar(s[i])
    ensures (forall i :: 0 <= i < |s| ==> IsSymbolChar(s[i])) ==> KeepSymbolChars(s) == s
  {
    if |s| > 0 {
      KeepSymbolCharsEmpty(s[1..]);
      if forall i :: 0 <= i < |s| ==> IsSymbolChar(s[i]) {
        assert forall i :: 0 <= i < |s[1..]| ==> IsSymbolChar(s[1..][i]) by {
          forall i | 0 <= i < |s[1..]| ensures IsSymbolChar(s[1..][i]) {
            assert s[1..][i] == s[i + 1];
          }
        }
        assert [s[0]] + s[1..] == s;
      }
      if forall i :: 1 <= i < |s| ==> !IsSymbolChar(s[i]) {
        assert forall i :: 0 <= i < |s[1..]| ==> !IsSymbolChar(s[1..][i]) by {
          forall i | 0 <= i < |s[1..]| ensures !IsSymbolChar(s[1..][i]) {
            assert s[1..][i] == s[i + 1];
          }
        }
      } else {
        var i :| 1 <= i < |s| && IsSymbolChar(s[i]);
        assert s[1..][i - 1] == s[i];
      }
    }
  }

  /** The "PET" fallback is taken exactly when the name has no ASCII letter or
      digit.  (A name such as "pet" also yields "PET", through the first
      branch.) */
  lemma SymbolFallback(name: string)
    ensures KeepSymbolChars(ToUpper(name)) == "" <==> forall i :: 0 <= i < |name| ==> !IsAsciiAlnum(name[i])
    ensures (forall i :: 0 <= i < |name| ==> !IsAsciiAlnum(name[i])) ==> GenerateSymbol(name) == "PET"
  {
    var u := ToUpper(name);
    KeepSymbolCharsEmpty(u);
    assert forall i :: 0 <= i < |name| ==> (IsSymbolChar(u[i]) <==> IsAsciiAlnum(name[i]));
  }

  /** A symbol is its own symbol. */
  lemma SymbolIdempotent(name: string)
    ensures GenerateSymbol(GenerateSymbol(name)) == GenerateSymbol(name)
  {
    var r := GenerateSymbol(name);
    assert ToUpper(r) == r;
    KeepSymbolCharsEmpty(r);
  }

  // ----- the description -----

  /** The activity word of the description, on the shared 25/50/75 split. */
  function ActivityWord(level: int): string {
    ["lazy", "chill", "active", "energetic"][Bucket(level)]
  }

  /** It is the activity label of the pet page, lower-cased. */
  lemma ActivityWordIsLabel(level: int)
    ensures ActivityWord(level) == ToLower(GetActivityText(level))
  {
  }

  /** The opening sentence fragment. */
  function Intro(p: Pet): string {
    "Meet " + p.personality.name + ", a " + p.personality.temperament + " " + SpeciesName(p.appearance.species)
  }

  /** The traits list before `slice(0, 2)`. */
  function Traits(p: Personality): seq<string> {
    (if p.lovesHumans then ["loves humans"] else [])
    + (if p.playful then ["playful"] else [])
    + [ActivityWord(p.activityLevel)]
  }

  /** The description before the 200-character cut. */
  function FullDescription(p: Pet): string {
    Intro(p) +
      if p.personality.bio != "" then ". " + p.personality.bio
      else " who " + Join(Take(Traits(p.personality), 2), " and ") + "."
           + " Favorite food: " + p.personality.favouriteFood + "."
  }

  /** `generateDescription`: the first 200 characters of the description. */
  function GenerateDescription(p: Pet): (r: string)
    ensures |r| <= 200 && |r| <= |FullDescription(p)|
    ensures r == FullDescription(p)[..|r|]
    ensures |r| == 200 || r == FullDescription(p)
  {
    Take(FullDescription(p), 200)
  }

  /** The description opens with the introduction, as far as the cut
      allows. */
  lemma DescriptionOpening(p: Pet)
    ensures |Intro(p)| <= 200 ==> GenerateDescription(p)[..|Intro(p)|] == Intro(p)
    ensures |Intro(p)| > 200 ==> GenerateDescription(p) == Intro(p)[..200]
  {
  }

  /** With a bio the description is the introduction and the bio, with no
      traits and no food. */
  lemma DescriptionWithBio(p: Pet)
    requires p.personality.bio != ""
    ensures FullDescription(p) == Intro(p) + ". " + p.personality.bio
  {
  }

  /** Which traits a bio-less description names: both flags if both hold, and
      otherwise the flag that holds (if any) and the activity word. */
  function TraitPhrase(p: Personality): string {
    var act := ActivityWord(p.activityLevel);
    if p.lovesHumans && p.playful then "loves humans and playful"
    else if p.lovesHumans then "loves humans and " + act
    else if p.playful then "playful and " + act
    else act
  }

  /** At most two traits are chosen, and the activity word is among them
      exactly when fewer than two flags hold; joined, they read as the trait
      phrase. */
  lemma ChosenTraits(q: Personality)
    ensures Join(Take(Traits(q), 2), " and ") == TraitPhrase(q)
    ensures ActivityWord(q.activityLevel) in Take(Traits(q), 2) <==> !(q.lovesHumans && q.playful)
  {
    var chosen := Take(Traits(q), 2);
    var act := ActivityWord(q.activityLevel);
    assert act != "loves humans" && act != "playful";
    if q.lovesHumans && q.playful {
      assert chosen == ["loves humans", "playful"];
    } else if q.lovesHumans {
      assert chosen == ["loves humans", act];
    } else if q.playful {
      assert chosen == ["playful", act];
    } else {
      assert chosen == [act];
    }
  }

  /** Without a bio the description names the chosen traits and the favourite
      food. */
  lemma DescriptionWithoutBio(p: Pet)
    requires p.personality.bio == ""
    ensures FullDescription(p) ==
      Intro(p) + (" who " + TraitPhrase(p.personality) + "." + " Favorite food: " + p.personality.favouriteFood + ".")
  {
    ChosenTraits(p.personality);
  }

  // ----- the metadata checks -----

  /** The outcome of the checks: the metadata passes, or the first failing
      check's error message. */
  datatype Verdict = Accepted | Rejected(message: string)

  /** The four checks of `launchToken` on the token name and symbol, in the
      source's order. */
  function ValidateMetadata(name: string, symbol: string): (v: Verdict)
    ensures v.Accepted? <==> !AllWhitespace(name) && !AllWhitespace(symbol) && |name| <= 32 && |symbol| <= 10
    ensures AllWhitespace(name) ==> v == Rejected("Token name is required")
    ensures !AllWhitespace(name) && AllWhitespace(symbol) ==> v == Rejected("Token symbol is required")
    ensures !AllWhitespace(name) && |name| > 32 && !AllWhitespace(symbol) ==> v == Rejected("Token name is too long (max 32 characters)")
    ensures !AllWhitespace(name) && !AllWhitespace(symbol) && |name| <= 32 && |symbol| > 10 ==>
      v == Rejected("Token symbol is too long (max 10 characters)")
  {
    if name == "" || |Trim(name)| == 0 then Rejected("Token name is required")
    else if symbol == "" || |Trim(symbol)| == 0 then Rejected("Token symbol is required")
    else if |name| > 32 then Rejected("Token name is too long (max 32 characters)")
    else if |symbol| > 10 then Rejected("Token symbol is too long (max 10 characters)")
    else Accepted
  }

  /** A generated symbol never fails the symbol checks: the launch is
      accepted exactly when the name has a non-blank character and at most 32
      characters. */
  lemma GeneratedSymbolPasses(name: string)
    ensures ValidateMetadata(name, GenerateSymbol(name)).Accepted? <==> !AllWhitespace(name) && |name| <= 32
    ensures ValidateMetadata(name, GenerateSymbol(name)) != Rejected("Token symbol is required")
    ensures ValidateMetadata(name, GenerateSymbol(name)) != Rejected("Token symbol is too long (max 10 characters)")
  {
    var s := GenerateSymbol(name);
    assert !IsWhitespace(s[0]);
  }
}
