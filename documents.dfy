/** Documents, configurations and the host's project descriptor
    (RazorDocument.cs, ProjectSystemRazorDocument.cs, HostProject.cs). */
module Documents {
  import opened Common

  /** A Razor document: ProjectSystemRazorDocument, the only concrete RazorDocument.
      It is immutable; it is a class because RazorDocument.Equals(object) compares
      references, which Dafny's `==` on class values does too. */
  class RazorDocument {
    const filePath: string
    const targetPath: string

    constructor (filePath: string, targetPath: string)
      ensures this.filePath == filePath && this.targetPath == targetPath
    {
      this.filePath := filePath;
      this.targetPath := targetPath;
    }
  }

  /** The ProjectSystemRazorDocument constructor with its two null checks. */
  method NewProjectSystemRazorDocument(filePath: Option<string>, targetPath: Option<string>)
    returns (r: Result<RazorDocument>)
    ensures filePath.None? ==> r == Failure(ArgumentNull("filePath"))
    ensures filePath.Some? && targetPath.None? ==> r == Failure(ArgumentNull("targetPath"))
    ensures filePath.Some? && targetPath.Some? ==>
      r.Success? && fresh(r.value) &&
      r.value.filePath == filePath.value && r.value.targetPath == targetPath.value
  {
    if filePath.None? {
      return Failure(ArgumentNull("filePath"));
    }
    if targetPath.None? {
      return Failure(ArgumentNull("targetPath"));
    }
    var d := new RazorDocument(filePath.value, targetPath.value);
    return Success(d);
  }

  /** RazorDocument.Equals(RazorDocument): both paths equal under the path comparer,
      which is modelled as equality after the normalisation `norm`. */
  predicate StructurallyEqual(norm: string -> string, d: RazorDocument, other: RazorDocument?)
  {
    other != null && norm(d.filePath) == norm(other.filePath) && norm(d.targetPath) == norm(other.targetPath)
  }

  /** RazorDocument.Equals(object) as written: `base.Equals` is object.Equals, reference identity. */
  predicate ObjectEquals(d: RazorDocument, other: RazorDocument?)
  {
    other != null && d == other
  }

  /** The structural equality is an equivalence on documents, and reference equality refines it. */
  lemma StructuralEqualityIsEquivalence(norm: string -> string, a: RazorDocument, b: RazorDocument, c: RazorDocument)
    ensures StructurallyEqual(norm, a, a)
    ensures StructurallyEqual(norm, a, b) ==> StructurallyEqual(norm, b, a)
    ensures StructurallyEqual(norm, a, b) && StructurallyEqual(norm, b, c) ==> StructurallyEqual(norm, a, c)
    ensures ObjectEquals(a, b) ==> StructurallyEqual(norm, a, b)
    ensures !StructurallyEqual(norm, a, null) && !ObjectEquals(a, null)
  {
  }

  /** Two distinct documents with the same paths: equal by Equals(RazorDocument),
      different by Equals(object). */
  method EqualsObjectIsReferenceEquality(norm: string -> string, filePath: string, targetPath: string)
    returns (a: RazorDocument, b: RazorDocument)
    ensures StructurallyEqual(norm, a, b)
    ensures !ObjectEquals(a, b)
  {
    a := new RazorDocument(filePath, targetPath);
    b := new RazorDocument(filePath, targetPath);
  }

  /** RazorDocument.GetHashCode: both path hashes fed to a hash combiner. The path hash
      `pathHash` and the combining step `combine` are parameters. */
  function DocumentHash(pathHash: string -> int, combine: (int, int) -> int, seed: int, d: RazorDocument): int
  {
    combine(combine(seed, pathHash(d.filePath)), pathHash(d.targetPath))
  }

  /** With a hash that agrees with the comparer, structurally equal documents hash equally. */
  lemma EqualDocumentsHashEqually(norm: string -> string, pathHash: string -> int, combine: (int, int) -> int,
                                  seed: int, a: RazorDocument, b: RazorDocument)
    requires forall s, t :: norm(s) == norm(t) ==> pathHash(s) == pathHash(t)
    requires StructurallyEqual(norm, a, b)
    ensures DocumentHash(pathHash, combine, seed, a) == DocumentHash(pathHash, combine, seed, b)
  {
  }

  /** RazorLanguageVersion; Latest is RazorLanguageVersion.Latest. */
  datatype LanguageVersion = Latest | Version(major: nat, minor: nat)

  datatype RazorExtension = RazorExtension(extensionName: string)

  /** A Razor configuration: the project system's (language version, name, extensions), or
      the fixed fallback FallbackRazorConfiguration.MVC_2_1. Equality is structural. */
  datatype RazorConfiguration =
    | ProjectSystemRazorConfiguration(languageVersion: LanguageVersion, configurationName: string,
                                      extensions: seq<RazorExtension>)
    | FallbackMvc21

  /** The host's project descriptor. `documents` is a value, so the array copy the
      constructor makes is implicit. */
  datatype HostProject = HostProject(filePath: string, configuration: RazorConfiguration,
                                     documents: seq<RazorDocument>)

  /** The HostProject constructor: three null checks in order, then the three properties. */
  function NewHostProject(projectFilePath: Option<string>, razorConfiguration: Option<RazorConfiguration>,
                          documents: Option<seq<RazorDocument>>): (r: Result<HostProject>)
    ensures projectFilePath.None? ==> r == Failure(ArgumentNull("projectFilePath"))
    ensures projectFilePath.Some? && razorConfiguration.None? ==> r == Failure(ArgumentNull("razorConfiguration"))
    ensures projectFilePath.Some? && razorConfiguration.Some? && documents.None? ==>
      r == Failure(ArgumentNull("documents"))
    ensures r.Success? <==> projectFilePath.Some? && razorConfiguration.Some? && documents.Some?
    ensures r.Success? ==>
      r.value.filePath == projectFilePath.value &&
      r.value.configuration == razorConfiguration.value &&
      |r.value.documents| == |documents.value| &&
      forall i :: 0 <= i < |documents.value| ==> r.value.documents[i] == documents.value[i]
  {
    if projectFilePath.None? then Failure(ArgumentNull("projectFilePath"))
    else if razorConfiguration.None? then Failure(ArgumentNull("razorConfiguration"))
    else if documents.None? then Failure(ArgumentNull("documents"))
    else Success(HostProject(projectFilePath.value, razorConfiguration.value, documents.value))
  }
}
