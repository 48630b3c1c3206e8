/**
 * The strings the tool derives from its configuration: the state bucket name,
 * the three backend options given to `terraform init`, and the variables and
 * variable file given to `terraform plan` and `terraform apply`. Each comes
 * with the reading that recovers the configuration from it.
 */
module Arguments {
  import opened Options
  import opened Decimal
  import opened Deployment

  const BucketSuffix := "-terraform-deployments"

  /** `{account}-{region}-terraform-deployments`. */
  function WorkingBucket(account: nat, region: string): string {
    DecimalString(account) + "-" + region + BucketSuffix
  }

  /** The position of the first `c` in `s`. */
  function IndexOf(s: string, c: char): (r: Option<nat>)
    ensures r.Some? ==> r.value < |s| && s[r.value] == c && c !in s[..r.value]
    ensures r.None? ==> c !in s
  {
    if s == [] then None
    else if s[0] == c then Some(0)
    else match IndexOf(s[1..], c)
      case None => None
      case Some(i) =>
        assert s[..i + 1] == [s[0]] + s[1..][..i];
        Some(i + 1)
  }

  lemma IndexOfFirst(a: string, c: char, b: string)
    requires c !in a
    ensures IndexOf(a + [c] + b, c) == Some(|a|)
  {
    var s := a + [c] + b;
    assert s[|a|] == c;
  }

  /** A `name=value` argument, as tfexec.Var and tfexec.BackendConfig take them. */
  function Assign(name: string, value: string): string {
    name + "=" + value
  }

  /** Reads an argument back as Terraform does: the name ends at the first `=`. */
  function SplitAssign(s: string): (r: Option<(string, string)>)
    ensures r.Some? ==> Assign(r.value.0, r.value.1) == s && '=' !in r.value.0
  {
    match IndexOf(s, '=')
    case None => None
    case Some(i) =>
      assert s == s[..i] + "=" + s[i + 1..];
      Some((s[..i], s[i + 1..]))
  }

  lemma SplitAssignRoundTrip(name: string, value: string)
    requires '=' !in name
    ensures SplitAssign(Assign(name, value)) == Some((name, value))
  {
    IndexOfFirst(name, '=', value);
    var s := Assign(name, value);
    assert s[..|name|] == name;
    assert s[|name| + 1..] == value;
  }

  /** Recovers account and region from a bucket name, when it is one. */
  function ParseBucket(s: string): Option<(nat, string)> {
    if |s| < |BucketSuffix| || s[|s| - |BucketSuffix|..] != BucketSuffix then None
    else
      var head := s[..|s| - |BucketSuffix|];
      match IndexOf(head, '-')
      case None => None
      case Some(i) =>
        match ParseDecimal(head[..i])
        case None => None
        case Some(n) => Some((n, head[i + 1..]))
  }

  /**
   * The bucket name determines account and region: the account's digits hold
   * no `-`, so the first `-` ends them, and the fixed suffix ends the region.
   */
  lemma WorkingBucketRoundTrip(account: nat, region: string)
    ensures ParseBucket(WorkingBucket(account, region)) == Some((account, region))
  {
    var digits := DecimalString(account);
    var s := WorkingBucket(account, region);
    var head := digits + "-" + region;
    assert s == head + BucketSuffix;
    assert s[|s| - |BucketSuffix|..] == BucketSuffix;
    assert s[..|s| - |BucketSuffix|] == head;
    assert forall k :: 0 <= k < |digits| ==> digits[k] != '-';
    IndexOfFirst(digits, '-', region);
    assert head[..|digits|] == digits;
    assert head[|digits| + 1..] == region;
    DecimalRoundTrip(account);
  }

  lemma WorkingBucketExample()
    ensures WorkingBucket(123, "eu-west-1") == "123-eu-west-1-terraform-deployments"
  {
    assert DigitChar(1) == '1' && DigitChar(2) == '2' && DigitChar(3) == '3';
    assert DecimalString(1) == "1";
    assert DecimalString(12) == DecimalString(1) + [DigitChar(2)] == "12";
    assert DecimalString(123) == DecimalString(12) + [DigitChar(3)] == "123";
  }

  /** `key=tfstate/{environment}/{app}.json`, `bucket={bucket}`, `region={region}`. */
  function BackendOptions(cfg: Config, bucket: string): seq<string> {
    [ Assign("key", StateKey(cfg)),
      Assign("bucket", bucket),
      Assign("region", cfg.region) ]
  }

  function StateKey(cfg: Config): string {
    "tfstate/" + cfg.environment + "/" + cfg.appName + ".json"
  }

  /** The four `-var` arguments shared by plan and apply. */
  function TerraformVars(cfg: Config, bucket: string): seq<string> {
    [ Assign("terraform_working_bucket", bucket),
      Assign("account_number", DecimalString(cfg.account)),
      Assign("environment", cfg.environment),
      Assign("vpc_id", cfg.vpcId) ]
  }

  /** `environments/{environment}.tfvars`. */
  function VarFile(environment: string): string {
    "environments/" + environment + ".tfvars"
  }

  /**
   * Terraform reads the backend options back as exactly the state key, the
   * bucket and the region, in that order, and the bucket names the
   * configured account and region.
   */
  lemma BackendOptionsRoundTrip(cfg: Config)
    ensures var opts := BackendOptions(cfg, WorkingBucket(cfg.account, cfg.region));
      |opts| == 3 &&
      SplitAssign(opts[0]) == Some(("key", "tfstate/" + cfg.environment + "/" + cfg.appName + ".json")) &&
      SplitAssign(opts[1]) == Some(("bucket", WorkingBucket(cfg.account, cfg.region))) &&
      SplitAssign(opts[2]) == Some(("region", cfg.region)) &&
      ParseBucket(SplitAssign(opts[1]).value.1) == Some((cfg.account, cfg.region))
  {
    SplitAssignRoundTrip("key", StateKey(cfg));
    SplitAssignRoundTrip("bucket", WorkingBucket(cfg.account, cfg.region));
    SplitAssignRoundTrip("region", cfg.region);
    WorkingBucketRoundTrip(cfg.account, cfg.region);
  }

  /**
   * Terraform reads the variables back as the bucket, the account number,
   * the environment and the VPC id, and both the bucket and the account
   * number give back the configured account.
   */
  lemma TerraformVarsRoundTrip(cfg: Config)
    ensures var vars := TerraformVars(cfg, WorkingBucket(cfg.account, cfg.region));
      |vars| == 4 &&
      SplitAssign(vars[0]) == Some(("terraform_working_bucket", WorkingBucket(cfg.account, cfg.region))) &&
      SplitAssign(vars[1]) == Some(("account_number", DecimalString(cfg.account))) &&
      SplitAssign(vars[2]) == Some(("environment", cfg.environment)) &&
      SplitAssign(vars[3]) == Some(("vpc_id", cfg.vpcId)) &&
      ParseBucket(WorkingBucket(cfg.account, cfg.region)) == Some((cfg.account, cfg.region)) &&
      ParseDecimal(DecimalString(cfg.account)) == Some(cfg.account)
  {
    SplitAssignRoundTrip("terraform_working_bucket", WorkingBucket(cfg.account, cfg.region));
    SplitAssignRoundTrip("account_number", DecimalString(cfg.account));
    SplitAssignRoundTrip("environment", cfg.environment);
    SplitAssignRoundTrip("vpc_id", cfg.vpcId);
    WorkingBucketRoundTrip(cfg.account, cfg.region);
    DecimalRoundTrip(cfg.account);
  }

  /** Distinct environments select distinct variable files. */
  lemma VarFileInjective(e1: string, e2: string)
    requires VarFile(e1) == VarFile(e2)
    ensures e1 == e2
  {
    var p := "environments/";
    var f1, f2 := VarFile(e1), VarFile(e2);
    assert |e1| == |e2|;
    assert e1 == f1[|p|..|f1| - 7];
    assert e2 == f2[|p|..|f2| - 7];
  }
}
