/** Field resolution of the workflow action: reading a dot-path such as
    `labels.workflow`, `annotations.summary` or `status` out of the alert
    record, and the environment-variable lookup used when the record has
    nothing (actions/gcp-workflows/src/main.go, extractFieldFromAlert and
    extractFieldFromEnv). */
module FieldResolver {
  import opened Alerts
  import opened Strings

  /** extractFieldFromAlert: one segment recognises only `status`; two
      segments read the `labels` or `annotations` map; anything else is "". */
  function ExtractFieldFromAlert(alert: AlertData, fieldPath: string): string
  {
    var parts := Split(fieldPath, '.');
    if |parts| == 1 then
      if parts[0] == "status" then alert.status else ""
    else if |parts| == 2 then
      if parts[0] == "labels" then MapValue(alert.labels, parts[1])
      else if parts[0] == "annotations" then MapValue(alert.annotations, parts[1])
      else ""
    else ""
  }

  /** `path` is `section` followed by one key that contains no further dot. */
  predicate InSection(path: string, section: string)
  {
    |section| <= |path| && path[..|section|] == section && '.' !in path[|section|..]
  }

  /** The field lookup stated on the path's characters rather than on its
      split: the reference definition ExtractFieldFromAlert is checked against. */
  function AlertFieldByPrefix(alert: AlertData, path: string): string
  {
    if path == "status" then alert.status
    else if InSection(path, "labels.") then MapValue(alert.labels, path[7..])
    else if InSection(path, "annotations.") then MapValue(alert.annotations, path[12..])
    else ""
  }

  lemma SectionSplit(path: string, section: string)
    requires |section| >= 1 && section[|section| - 1] == '.'
    requires '.' !in section[..|section| - 1]
    requires InSection(path, section)
    ensures Split(path, '.') == [section[..|section| - 1], path[|section|..]]
  {
    var name := section[..|section| - 1];
    var key := path[|section|..];
    assert path == name + ['.'] + key by {
      assert section == name + ['.'];
      assert path == path[..|section|] + key;
    }
    SplitAfterPiece(name, '.', key);
    SplitWithoutSep(key, '.');
  }

  /** A path that is neither `status` nor inside a section reads nothing. */
  lemma OutsideSectionsIsEmpty(alert: AlertData, path: string)
    requires path != "status" && !InSection(path, "labels.") && !InSection(path, "annotations.")
    ensures ExtractFieldFromAlert(alert, path) == ""
  {
    var parts := Split(path, '.');
    JoinSplit(path, '.');
    if |parts| == 1 {
      assert path == parts[0];
    } else if |parts| == 2 {
      assert path == parts[0] + ['.'] + parts[1];
    }
  }

  /** extractFieldFromAlert agrees with the prefix-based reading on
      every record and every path. */
  lemma ExtractFieldFromAlertByPrefix(alert: AlertData, path: string)
    ensures ExtractFieldFromAlert(alert, path) == AlertFieldByPrefix(alert, path)
  {
    if path == "status" {
      SplitWithoutSep(path, '.');
    } else if InSection(path, "labels.") {
      SectionSplit(path, "labels.");
    } else if InSection(path, "annotations.") {
      SectionSplit(path, "annotations.");
    } else {
      OutsideSectionsIsEmpty(alert, path);
    }
  }

  /** `status` yields the record's status. */
  lemma StatusField(alert: AlertData)
    ensures ExtractFieldFromAlert(alert, "status") == alert.status
  {
    SplitWithoutSep("status", '.');
  }

  /** `labels.k` yields the label `k`, or "" when the map is nil or lacks `k`. */
  lemma LabelField(alert: AlertData, key: string)
    requires '.' !in key
    ensures ExtractFieldFromAlert(alert, "labels." + key) ==
            (if alert.labels.Some? && key in alert.labels.value then alert.labels.value[key] else "")
  {
    SectionSplit("labels." + key, "labels.");
    assert ("labels." + key)[7..] == key;
  }

  /** `annotations.k` yields the annotation `k`, or "" as for labels. */
  lemma AnnotationField(alert: AlertData, key: string)
    requires '.' !in key
    ensures ExtractFieldFromAlert(alert, "annotations." + key) ==
            (if alert.annotations.Some? && key in alert.annotations.value then alert.annotations.value[key] else "")
  {
    SectionSplit("annotations." + key, "annotations.");
    assert ("annotations." + key)[12..] == key;
  }

  /** A path of three or more segments never reads the record. */
  lemma DeepPathIsEmpty(alert: AlertData, path: string)
    requires |Split(path, '.')| >= 3
    ensures ExtractFieldFromAlert(alert, path) == ""
  {
  }

  /** A single segment other than `status` never reads the record. */
  lemma OtherSingleSegmentIsEmpty(alert: AlertData, path: string)
    requires '.' !in path && path != "status"
    ensures ExtractFieldFromAlert(alert, path) == ""
  {
    SplitWithoutSep(path, '.');
  }

  /** The well-known field paths and the variable each one reads. */
  const EnvMappings: map<string, string> := map[
    "labels.alertname" := "ALERT_NAME",
    "labels.workflow" := "WORKFLOW_FROM_LABEL",
    "annotations.workflow" := "WORKFLOW_FROM_ANNOTATION",
    "annotations.workflow_name" := "WORKFLOW_NAME_FROM_ANNOTATION",
    "status" := "ALERT_STATUS"
  ]

  /** The variable name derived from a path outside the table:
      `.` becomes `_` and letters are upper-cased. */
  function DerivedEnvName(fieldPath: string): (name: string)
    ensures |name| == |fieldPath|
    ensures forall i :: 0 <= i < |name| ==>
      name[i] == (if fieldPath[i] == '.' then '_' else UpperChar(fieldPath[i]))
  {
    ToUpper(ReplaceAll(fieldPath, '.', '_'))
  }

  /** extractFieldFromEnv. */
  function ExtractFieldFromEnv(env: Env, fieldPath: string): string
  {
    if fieldPath in EnvMappings then Getenv(env, EnvMappings[fieldPath])
    else Getenv(env, DerivedEnvName(fieldPath))
  }

  /** A table path reads its mapped variable and no other: here
      `labels.workflow` reads WORKFLOW_FROM_LABEL and ignores LABELS_WORKFLOW. */
  lemma LabelsWorkflowReadsTableVariable(env: Env, other: string)
    ensures ExtractFieldFromEnv(env, "labels.workflow") == Getenv(env, "WORKFLOW_FROM_LABEL")
    ensures ExtractFieldFromEnv(env["LABELS_WORKFLOW" := other], "labels.workflow") ==
            ExtractFieldFromEnv(env, "labels.workflow")
  {
    assert Getenv(env["LABELS_WORKFLOW" := other], "WORKFLOW_FROM_LABEL") == Getenv(env, "WORKFLOW_FROM_LABEL");
  }

  /** Each table path reads exactly its mapped variable: changing any other
      variable does not change the result. */
  lemma TablePathReadsOnlyItsVariable(env: Env, fieldPath: string, key: string, value: string)
    requires fieldPath in EnvMappings && key != EnvMappings[fieldPath]
    ensures ExtractFieldFromEnv(env, fieldPath) == Getenv(env, EnvMappings[fieldPath])
    ensures ExtractFieldFromEnv(env[key := value], fieldPath) == ExtractFieldFromEnv(env, fieldPath)
  {
  }

  /** A path outside the table reads the variable whose name is the path
      upper-cased with every `.` turned into `_`. */
  lemma UntabledPathReadsDerivedName(env: Env, fieldPath: string, name: string)
    requires fieldPath !in EnvMappings
    requires |name| == |fieldPath|
    requires forall i :: 0 <= i < |name| ==>
      name[i] == (if fieldPath[i] == '.' then '_' else UpperChar(fieldPath[i]))
    ensures ExtractFieldFromEnv(env, fieldPath) == Getenv(env, name)
  {
    assert name == DerivedEnvName(fieldPath);
  }
}
