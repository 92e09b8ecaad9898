/** The command-line prefix both deploy scripts put in front of every AWS CLI call. */
module AwsCli {
  import opened Strings

  /** The `{ Quantity, Items }` pair the AWS APIs use for every list. */
  datatype Counted<T> = Counted(quantity: nat, items: seq<T>)

  function Count<T>(items: seq<T>): (c: Counted<T>)
    ensures c.items == items && c.quantity == |c.items|
  {
    Counted(|items|, items)
  }

  /** `buildAwsCommand(base, profile)`: the profile flag is added only for a truthy profile. */
  function BuildAwsCommand(base: string, profile: Option<string>): (cmd: string)
    ensures IsPrefix("aws ", cmd) && IsSuffix(base, cmd)
    ensures |cmd| == |base| + (if Truthy(profile) then 15 + |profile.value| else 4)
  {
    if Truthy(profile) then "aws --profile " + profile.value + " " + base else "aws " + base
  }

  lemma SplitWord(w: string, rest: string)
    requires ' ' !in w
    ensures Split(w + " " + rest, ' ') == [w] + Split(rest, ' ')
  {
    SplitNoSeparator(w, ' ');
    SplitAroundSeparator(w, ' ', rest);
  }

  /** Read back as words, the command is `aws`, then `--profile P` for a truthy
      space-free profile, then the words of the base command. */
  lemma BuildAwsCommandWords(base: string, profile: Option<string>)
    requires Truthy(profile) ==> ' ' !in profile.value
    ensures Split(BuildAwsCommand(base, profile), ' ')
         == (if Truthy(profile) then ["aws", "--profile", profile.value] else ["aws"]) + Split(base, ' ')
  {
    if Truthy(profile) {
      ProfiledWords(base, profile.value);
    } else {
      PlainWords(base);
    }
  }

  lemma PlainWords(base: string)
    ensures Split("aws " + base, ' ') == ["aws"] + Split(base, ' ')
  {
    var aws := "aws";
    assert "aws " + base == aws + " " + base;
    SplitWord(aws, base);
  }

  lemma ProfiledWords(base: string, p: string)
    requires ' ' !in p
    ensures Split("aws --profile " + p + " " + base, ' ') == ["aws", "--profile", p] + Split(base, ' ')
  {
    ProfiledText(p, base);
    ThreeWords("aws", "--profile", p, base);
  }

  lemma ThreeWords(w1: string, w2: string, w3: string, rest: string)
    requires ' ' !in w1 && ' ' !in w2 && ' ' !in w3
    ensures Split(w1 + " " + (w2 + " " + (w3 + " " + rest)), ' ') == [w1, w2, w3] + Split(rest, ' ')
  {
    var words := Split(rest, ' ');
    SplitWord(w3, rest);
    SplitWord(w2, w3 + " " + rest);
    SplitWord(w1, w2 + " " + (w3 + " " + rest));
    assert [w1] + ([w2] + ([w3] + words)) == [w1, w2, w3] + words;
  }

  lemma ProfiledText(p: string, base: string)
    ensures "aws --profile " + p + " " + base == "aws" + " " + ("--profile" + " " + (p + " " + base))
  {
  }
}
