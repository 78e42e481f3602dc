/**
 * Storage-path derivation: the sanitiser for one path segment and the
 * builder of the directory an upload is stored in (src/utils.ts).
 * A path is a sequence of segments; `path.join` normalisation is not modelled.
 */
module StoragePath {
  import opened Wrappers
  import opened Text

  type Path = seq<JsString>

  /** Membership in the character class `[a-zA-Z0-9_.-]`, for one code unit. */
  predicate IsSafeUnit(c: CodeUnit) {
    || ('A' as int <= c <= 'Z' as int)
    || ('a' as int <= c <= 'z' as int)
    || ('0' as int <= c <= '9' as int)
    || c == Underscore
    || c == Dot
    || c == '-' as int
  }

  predicate IsSafe(s: JsString) {
    forall i :: 0 <= i < |s| ==> IsSafeUnit(s[i])
  }

  /** One code unit through the global replace: kept if safe, `_` otherwise. */
  function SanitizeUnit(c: CodeUnit): (r: CodeUnit) {
    if IsSafeUnit(c) then c else Underscore
  }

  /** `s.replace(/[^a-zA-Z0-9_.-]/g, '_')`. */
  function ReplaceUnsafe(s: JsString): (r: JsString)
    ensures |r| == |s|
  {
    if s == [] then [] else [SanitizeUnit(s[0])] + ReplaceUnsafe(s[1..])
  }

  /** `sanitizePathPart`: falsy input gives "", anything else goes through the replace. */
  function SanitizePathPart(name: Option<JsString>): (r: JsString)
    ensures |r| == if Truthy(name) then |name.value| else 0
  {
    if !Truthy(name) then [] else ReplaceUnsafe(name.value)
  }

  /** The replace works unit by unit: each position depends only on the unit there. */
  lemma {:induction false} ReplaceUnsafeAt(s: JsString, i: int)
    requires 0 <= i < |s|
    ensures ReplaceUnsafe(s)[i] == SanitizeUnit(s[i])
  {
    if i > 0 {
      ReplaceUnsafeAt(s[1..], i - 1);
    }
  }

  /** Every code unit of a sanitised segment lies in `[A-Za-z0-9_.-]`. */
  lemma SanitizedIsSafe(name: Option<JsString>)
    ensures IsSafe(SanitizePathPart(name))
  {
    if Truthy(name) {
      forall i | 0 <= i < |name.value|
        ensures IsSafeUnit(SanitizePathPart(name)[i])
      {
        ReplaceUnsafeAt(name.value, i);
      }
    }
  }

  /** The replace leaves a string unchanged exactly when it is already safe. */
  lemma ReplaceUnsafeFixesSafe(s: JsString)
    ensures ReplaceUnsafe(s) == s <==> IsSafe(s)
  {
    forall i | 0 <= i < |s| {
      ReplaceUnsafeAt(s, i);
    }
    if IsSafe(s) {
      assert forall i :: 0 <= i < |s| ==> ReplaceUnsafe(s)[i] == s[i];
    }
  }

  /** Sanitising twice is sanitising once. */
  lemma SanitizeIdempotent(name: Option<JsString>)
    ensures SanitizePathPart(Some(SanitizePathPart(name))) == SanitizePathPart(name)
  {
    SanitizedIsSafe(name);
    ReplaceUnsafeFixesSafe(SanitizePathPart(name));
  }

  /**
   * The dot segments are made of safe characters, so they come through
   * unchanged: a name ".." yields a ".." directory level.
   */
  lemma DotSegmentsPassThrough()
    ensures SanitizePathPart(Some(Lit("."))) == Lit(".")
    ensures SanitizePathPart(Some(Lit(".."))) == Lit("..")
  {
    ReplaceUnsafeFixesSafe(Lit("."));
    ReplaceUnsafeFixesSafe(Lit(".."));
  }

  // ---------------------------------------------------------------------------
  // generateStoragePath

  const Mantenimientos: JsString := Lit("Mantenimientos")
  const Levantamientos: JsString := Lit("Levantamientos")
  const Obras: JsString := Lit("Obras")

  /** The error thrown when a required name is missing: one error, whichever name it is. */
  datatype PathError = MissingRequiredNames

  /** The thrown error's message, which names all three required fields. */
  function PathErrorMessage(e: PathError): (msg: JsString) {
    Lit("Faltan metadatos requeridos para generar la ruta: clienteNombre, lugarNombre, tipoServicioNombre")
  }

  datatype PathMetadata = PathMetadata(
    clientName: Option<JsString>,
    locationName: Option<JsString>,
    serviceTypeName: Option<JsString>,
    periodicity: Option<JsString>,
    equipmentName: Option<JsString>,
    taskId: Option<JsString>)

  predicate HasRequiredNames(m: PathMetadata) {
    Truthy(m.clientName) && Truthy(m.locationName) && Truthy(m.serviceTypeName)
  }

  /**
   * `generateStoragePath(base, m)`: base, client, location and service type,
   * then up to two sub-levels chosen by the unsanitised service-type name.
   * A sub-level is appended only when its sanitised text is non-empty.
   */
  function GenerateStoragePath(base: JsString, m: PathMetadata): (r: Result<Path, PathError>)
    ensures r.Failure? <==> !HasRequiredNames(m)
    ensures r.Success? ==> 4 <= |r.value| <= 6
  {
    if !Truthy(m.clientName) || !Truthy(m.locationName) || !Truthy(m.serviceTypeName) then
      Failure(MissingRequiredNames)
    else
      var serviceType := m.serviceTypeName.value;
      var (sub1, sub2) :=
        if serviceType == Mantenimientos && Truthy(m.periodicity) && Truthy(m.equipmentName) then
          (SanitizePathPart(m.periodicity), SanitizePathPart(m.equipmentName))
        else if serviceType == Levantamientos && Truthy(m.equipmentName) && Truthy(m.taskId) then
          (SanitizePathPart(m.equipmentName), SanitizePathPart(m.taskId))
        else if serviceType == Obras && Truthy(m.taskId) then
          (SanitizePathPart(m.taskId), [])
        else
          ([], []);
      var dir := [base, SanitizePathPart(m.clientName), SanitizePathPart(m.locationName), SanitizePathPart(m.serviceTypeName)];
      var dir1 := if sub1 != [] then dir + [sub1] else dir;
      var dir2 := if sub2 != [] then dir1 + [sub2] else dir1;
      Success(dir2)
  }

  /** On success the path starts with base and the three sanitised names, in that order. */
  lemma MandatorySegments(base: JsString, m: PathMetadata)
    requires HasRequiredNames(m)
    ensures var p := GenerateStoragePath(base, m).value;
      p[..4] == [base, SanitizePathPart(m.clientName), SanitizePathPart(m.locationName), SanitizePathPart(m.serviceTypeName)]
  {
  }

  /** The three service-type names are distinct, so at most one rule applies. */
  lemma ServiceTypeNamesDistinct()
    ensures Mantenimientos != Levantamientos && Mantenimientos != Obras && Levantamientos != Obras
  {
    assert Mantenimientos[0] == 'M' as int;
    assert Levantamientos[0] == 'L' as int;
    assert Obras[0] == 'O' as int;
  }

  /**
   * The sub-levels after the four mandatory segments, rule by rule: both or
   * neither for Mantenimientos and Levantamientos, the task alone for Obras,
   * nothing for any other service type.
   */
  lemma SubLevels(base: JsString, m: PathMetadata)
    requires HasRequiredNames(m)
    ensures var p := GenerateStoragePath(base, m).value;
      var serviceType := m.serviceTypeName.value;
      && (serviceType == Mantenimientos ==>
            p[4..] == if Truthy(m.periodicity) && Truthy(m.equipmentName)
                      then [SanitizePathPart(m.periodicity), SanitizePathPart(m.equipmentName)] else [])
      && (serviceType == Levantamientos ==>
            p[4..] == if Truthy(m.equipmentName) && Truthy(m.taskId)
                      then [SanitizePathPart(m.equipmentName), SanitizePathPart(m.taskId)] else [])
      && (serviceType == Obras ==>
            p[4..] == if Truthy(m.taskId) then [SanitizePathPart(m.taskId)] else [])
      && (serviceType != Mantenimientos && serviceType != Levantamientos && serviceType != Obras ==>
            p[4..] == [])
  {
    ServiceTypeNamesDistinct();
  }
}
