/** The project configuration: three depths of environment entries (root, resource,
    allocation), the errors its readers report, and the shapes of legal names. */
module Config {
  import opened Text

  type EnvMap = map<string, string>

  datatype AllocationConfig = AllocationConfig(env: EnvMap)

  datatype ResourceConfig = ResourceConfig(
    track: Option<string>,
    env: EnvMap,
    allocations: map<string, AllocationConfig>)

  datatype PhpConfig = PhpConfig(version: Option<string>, extensions: seq<string>)

  datatype ProjectConfig = ProjectConfig(
    serve: bool,
    envFile: string,
    php: Option<PhpConfig>,
    documentRoot: Option<string>,
    hostnames: seq<string>,
    env: EnvMap,
    resources: map<string, ResourceConfig>)

  datatype ConfigError =
    | InvalidEnvPlaceholder(field: string, placeholder: string, reason: string)
    | UnknownEnvPlaceholder(field: string, placeholder: string)
    | EnvPlaceholderContract(resource: string)
    | MissingEnvContext(field: string, placeholder: string)
    | MissingResourceEnvContext(resource: string)
    | MissingAllocationEnvContext(resource: string, allocation: string)
    | DuplicateRenderedEnvKey(key: string, first: string, second: string)
    | MalformedManagedEnvBlock(reason: string)
    | UnknownTopLevelKey(key: string)
    | UnsupportedResourceAllocations(resource: string)
    | InvalidEnvKey(key: string)
    | InvalidAllocationName(allocation: string)
    | DuplicateNormalizedAllocation(resource: string, allocation: string, normalized: string)

  predicate IsUpper(c: char) { 'A' <= c <= 'Z' }

  predicate IsLower(c: char) { 'a' <= c <= 'z' }

  /** Environment keys: `[A-Z_][A-Z0-9_]*`. */
  predicate IsEnvKey(key: string) {
    && key != ""
    && (IsUpper(key[0]) || key[0] == '_')
    && forall i :: 1 <= i < |key| ==> IsUpper(key[i]) || IsDigit(key[i]) || key[i] == '_'
  }

  /** Allocation names: `[a-z][a-z0-9_-]*`. */
  predicate IsAllocationName(name: string) {
    && name != ""
    && IsLower(name[0])
    && forall i :: 1 <= i < |name| ==>
         IsLower(name[i]) || IsDigit(name[i]) || name[i] == '_' || name[i] == '-'
  }

  /** Placeholder names: `[a-z][a-z0-9_]*`. */
  predicate IsPlaceholderName(name: string) {
    && name != ""
    && IsLower(name[0])
    && forall i :: 1 <= i < |name| ==> IsLower(name[i]) || IsDigit(name[i]) || name[i] == '_'
  }

  /** The same by the code points of the characters. */
  lemma NamesExact(name: string)
    ensures IsEnvKey(name) <==>
      && name != "" && !(48 <= name[0] as int <= 57)
      && forall c :: c in name ==> 65 <= c as int <= 90 || 48 <= c as int <= 57 || c as int == 95
    ensures IsAllocationName(name) <==>
      && name != "" && 97 <= name[0] as int <= 122
      && forall c :: c in name ==> 97 <= c as int <= 122 || 48 <= c as int <= 57 || c as int == 95 || c as int == 45
    ensures IsPlaceholderName(name) <==> IsAllocationName(name) && '-' !in name
  {
    assert forall i :: 0 <= i < |name| ==> name[i] in name;
  }
}
