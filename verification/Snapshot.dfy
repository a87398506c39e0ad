/** Cluster identifiers and the occupancy snapshot (`core/cluster_status.py`, `orchestration/job_metadata.py`). */
module Snapshot {
  import opened Prelude
  import opened Text

  const INTENT_ID_LEN := 16
  const PLACEMENT_TOKEN_LEN := 12

  datatype Workload = Workload(clusterId: string, intentId: Option<string>, ranks: int)

  datatype Gpu = Gpu(index: int, usedMemory: real, usedUtil: real, workloads: seq<Workload>)

  datatype HostEntry = HostEntry(host: string, workloads: seq<Workload>, used: nat, free: nat, gpus: seq<Gpu>)

  datatype Status = Status(hosts: seq<HostEntry>)

  predicate IsHex(s: string) {
    forall c :: c in s ==> IsDigit(c) || 'a' <= c <= 'f'
  }

  /**
   * `parse_cluster_id`: the intent and placement halves of a canonical
   * `sparkrun_<16 hex>_<12 hex>`. The pattern's `$` tolerates one trailing newline.
   */
  function ParseClusterId(cid: string): Option<(string, string)> {
    var body := if |cid| == 39 && cid[38] == '\n' then cid[..38] else cid;
    if |body| == 38 && body[..9] == "sparkrun_" && IsHex(body[9..25]) && body[25] == '_' && IsHex(body[26..])
    then Some((body[9..25], body[26..]))
    else None
  }

  function IntentPrefix(intent: string): string {
    "sparkrun_" + intent + "_"
  }

  /** `generate_cluster_id` on valid halves. */
  function ClusterId(intent: string, token: string): string {
    IntentPrefix(intent) + token
  }

  predicate ValidHalves(intent: string, token: string) {
    |intent| == INTENT_ID_LEN && IsHex(intent) && |token| == PLACEMENT_TOKEN_LEN && IsHex(token)
  }

  /** Parsing a composed id gives its halves back. */
  lemma ParseComposed(intent: string, token: string)
    requires ValidHalves(intent, token)
    ensures ParseClusterId(ClusterId(intent, token)) == Some((intent, token))
  {
    var cid := ClusterId(intent, token);
    assert cid[..9] == "sparkrun_" && cid[9..25] == intent && cid[25] == '_' && cid[26..] == token;
  }

  /** Canonical ids: sixteen and twelve lower-case hexadecimal digits in their places, and perhaps a newline. */
  lemma CanonicalIff(cid: string)
    ensures ParseClusterId(cid).Some? <==>
      && (|cid| == 38 || (|cid| == 39 && cid[38] == '\n'))
      && cid[..9] == "sparkrun_" && cid[25] == '_'
      && forall k :: 9 <= k < 38 && k != 25 ==> '0' <= cid[k] <= '9' || 'a' <= cid[k] <= 'f'
    ensures ParseClusterId(cid).Some? ==> ParseClusterId(cid).value == (cid[9..25], cid[26..38])
  {
    var body := if |cid| == 39 && cid[38] == '\n' then cid[..38] else cid;
    if |body| == 38 {
      assert body[..9] == cid[..9] && body[9..25] == cid[9..25] && body[26..] == cid[26..38];
      var i, t := body[9..25], body[26..];
      if IsHex(i) && IsHex(t) {
        forall k | 9 <= k < 38 && k != 25 ensures '0' <= cid[k] <= '9' || 'a' <= cid[k] <= 'f' {
          assert if k < 25 then cid[k] == i[k - 9] && i[k - 9] in i else cid[k] == t[k - 26] && t[k - 26] in t;
        }
      }
      if forall k :: 9 <= k < 38 && k != 25 ==> '0' <= cid[k] <= '9' || 'a' <= cid[k] <= 'f' {
        forall c | c in i ensures IsDigit(c) || 'a' <= c <= 'f' {
          var x :| 0 <= x < |i| && i[x] == c;
          assert cid[x + 9] == c;
        }
        forall c | c in t ensures IsDigit(c) || 'a' <= c <= 'f' {
          var x :| 0 <= x < |t| && t[x] == c;
          assert cid[x + 26] == c;
        }
      }
    }
  }

  /** Composing the halves of a parsed id gives it back, but for the one newline the pattern tolerates. */
  lemma ComposeParsed(cid: string)
    requires ParseClusterId(cid).Some?
    ensures var (intent, token) := ParseClusterId(cid).value;
      && ValidHalves(intent, token)
      && (cid == ClusterId(intent, token) || cid == ClusterId(intent, token) + "\n")
      && (ClusterId(intent, token) == cid <==> cid[|cid| - 1] != '\n')
  {
    var body := if |cid| == 39 && cid[38] == '\n' then cid[..38] else cid;
    var (intent, token) := ParseClusterId(cid).value;
    assert body == body[..9] + body[9..25] + [body[25]] + body[26..];
    assert body == ClusterId(intent, token);
    assert token[11] in token;
    assert |cid| == 39 ==> cid == body + "\n";
  }

  lemma OneUnderscoreAfterHead(cid: string)
    requires ParseClusterId(cid).Some?
    ensures |cid| >= 38 && cid[..9] == "sparkrun_" && cid[9..25] == ParseClusterId(cid).value.0
    ensures forall k :: 9 <= k < |cid| ==> (cid[k] == '_' <==> k == 25)
  {
    var body := if |cid| == 39 && cid[38] == '\n' then cid[..38] else cid;
    var i, t := body[9..25], body[26..];
    forall k | 9 <= k < |body| ensures body[k] == '_' <==> k == 25 {
      assert k < 25 ==> body[k] == i[k - 9];
      assert k < 25 ==> i[k - 9] in i;
      assert k > 25 ==> body[k] == t[k - 26];
      assert k > 25 ==> t[k - 26] in t;
    }
  }

  /** On a canonical id the prefix test and the parser see the same intent, whatever intent is asked for. */
  lemma PrefixMeansParsed(cid: string, intent: string)
    requires ParseClusterId(cid).Some?
    ensures IntentPrefix(intent) <= cid <==> ParseClusterId(cid).value.0 == intent
  {
    OneUnderscoreAfterHead(cid);
    var p := IntentPrefix(intent);
    var k := 9 + |intent|;
    assert p[k] == '_' && |p| == k + 1;
    if p <= cid {
      assert cid[k] == '_';
      assert intent == p[9..25];
    }
    if cid[9..25] == intent {
      assert cid[..26] == cid[..9] + cid[9..25] + [cid[25]];
      assert p == cid[..26];
    }
  }

  /** `workload_matches_intent`. */
  predicate MatchesIntent(w: Workload, intent: string) {
    intent != "" &&
    (w.intentId == Some(intent) || (ParseClusterId(w.clusterId).Some? && ParseClusterId(w.clusterId).value.0 == intent))
  }

  /** A slot claim is never less than one. */
  function Claim(w: Workload): nat {
    if w.ranks > 1 then w.ranks else 1
  }

  function Load(ws: seq<Workload>): nat {
    if ws == [] then 0 else Claim(ws[0]) + Load(ws[1..])
  }

  lemma {:induction false} LoadAppend(a: seq<Workload>, b: seq<Workload>)
    ensures Load(a + b) == Load(a) + Load(b)
  {
    if a == [] {
      assert a + b == b;
    } else {
      assert (a + b)[1..] == a[1..] + b;
      LoadAppend(a[1..], b);
    }
  }
}
