# Scaleway instance report — Dafny model

`scw_instances_info.py` lists the Scaleway instances and security groups with
the `scw` command-line client. It joins each instance to the firewall rules of
its security group and prints a plain-text report. This project models that
report step and proves what the printed lines promise.

- **Fetching** (`ScwCli`). Running a command can end three ways: a non-zero exit,
  output that is not JSON, or a decoded JSON array. On failure the function
  prints diagnostics and returns the `{}` sentinel. On success it returns the list.
  "No data" means the sentinel or an empty list: Python's `not result`.
- **Report** (`InstanceReport`). `PrintReport` follows `main` step by step:
  - it stops after the "no instances" message;
  - otherwise it lists the security groups and stops after the "no security groups" message;
  - otherwise it builds the id → rules table (`RulesById`) from the groups that were listed;
  - it prints the header, then one block per instance, one `for` loop per level (`PrintInstance`, `PrintRules`, `PrintRule`).
  Each print appends to a sequence of lines. A string printed with a leading
  line break adds an empty line before its text. `print()` adds one empty line.
  The method also returns the CLI commands it issued. That list shows the
  security-group list is fetched only when instances were found. Every method
  is proved equal to a specification function (`Stdout`, `RenderInstance`, …).
  Those functions are built from two parts:
  - normalisation: the "N/A" defaults and the group lookup (`NormalizeInstance`);
  - layout: `RenderInstance`.
- **Properties** (`ReportProperties`):
  - the early exits;
  - the lookup table's last-wins rule and how instances resolve against it;
  - one header, and one separator per instance;
  - the "no firewall rules" message appears exactly when the group does not resolve;
  - the six-line rule blocks come in rule order.
- **Reading back** (`ReportReader`). A parser for the report is the partner of
  the layout. Parsing a rendered report gives back exactly the normalised
  instances, in input order. So the report is unambiguous.

## Model

| member | source | states |
|---|---|---|
| `ScwCli.Fetch` | scw_instances_info.py:11-25 | the result is falsy exactly when the command failed, its output was not JSON, or it decoded to an empty list; otherwise it is the decoded list |
| `ScwCli.Diagnostics` | scw_instances_info.py:19-25 | the command prints diagnostic lines exactly when it fails or its output cannot be decoded |
| `Text.Dashes` | scw_instances_info.py:59 | `"-" * n` has length n and every character is a dash |
| `InstanceReport.RulesById` | scw_instances_info.py:53-55 | the table's keys are exactly the listed group ids; an id maps to the rules of the last group carrying it |
| `InstanceReport.NormalizeInstance` | scw_instances_info.py:62-78 | an instance's rules are shown exactly when its embedded `security_group.id` is present, non-empty and a key of the table, and then they are that key's rules |
| `InstanceReport.PrintReport` | scw_instances_info.py:39-80 | the printed lines equal `Stdout`; the security-group list is requested only when the instance list is non-empty |
| `InstanceReport.PrintInstance` | scw_instances_info.py:61-80 | one instance block equals the rendering of the normalised instance |
| `InstanceReport.PrintRules` | scw_instances_info.py:70-76 | the nested loop prints the rule blocks of the group in order |
| `InstanceReport.PrintRule` | scw_instances_info.py:71-76 | one rule prints its six lines, "N/A" for each absent key |
| `ReportProperties.NoInstancesExit` | scw_instances_info.py:41-44 | with no instances, the output after the fetch diagnostics is just the "no instances" message, whatever the group list holds |
| `ReportProperties.FailedInstancesFetchExits` | scw_instances_info.py:18-44 | a failed instance fetch prints diagnostics, ends with the "no instances" message and prints no report header |
| `ReportProperties.NoGroupsExit` | scw_instances_info.py:47-50 | with instances but no security groups, the output after the diagnostics is just the "no security groups" message |
| `ReportProperties.InstanceSeesLastGroup` | scw_instances_info.py:53-70 | an instance naming the non-empty id of a listed group is shown the rules of the last group with that id |
| `ReportProperties.DanglingGroupReference` | scw_instances_info.py:67-78 | an instance naming an id that no listed group has is shown the "no firewall rules" message once |
| `ReportProperties.InstanceBlock` | scw_instances_info.py:61-80 | a block ends with the separator and holds no other; the "no rules" message appears once exactly when the group does not resolve, and then the block has six lines; otherwise "Firewall Rules:" appears and the block has 7 + 6 × (number of rules) lines |
| `ReportProperties.HeaderAndSeparators` | scw_instances_info.py:58-80 | the report opens with the header; "Instance Information:" appears once; there are exactly one more separator lines than instances |
| `ReportProperties.RuleLinesAt` | scw_instances_info.py:70-76 | rule j of a group occupies lines 6j to 6j+5 of the rule section: protocol, direction, action, IP range, the port range (each end "N/A" when absent) and an empty line |
| `ReportProperties.RenderRulesAt` | scw_instances_info.py:70-76 | the rule section has six lines per rule and block j is rule j's lines |
| `ReportReader.ReportRoundTrip` | scw_instances_info.py:58-80 | parsing the report gives one entry per instance, in input order, with its name, id and status ("N/A" when absent), and its firewall rules exactly when its group resolves |
| `ReportReader.ParseInstancesOfRender` | scw_instances_info.py:61-80 | parsing a sequence of instance blocks gives back the instances they show |
| `ReportReader.ParseRulesOfRender` | scw_instances_info.py:70-76 | parsing rule blocks up to the separator gives back the rules they show and what follows |

## Left out

- Running the subprocess and decoding JSON (lines 3-4 and 11-18) are foreign code. Each command's outcome is an input (`ScwCli.Outcome`), and the exception texts are opaque strings.
- A missing `scw` binary raises an uncaught `FileNotFoundError`. This crash is not modelled.
- All decoded JSON is assumed to be an array of objects. Another truthy value, such as a non-empty object, would be iterated key by key or crash. That is not modelled.
- The crash paths are excluded by the types. A security group always has `id` and `rules`, so the `KeyError` at line 54 cannot occur. A present `security_group` is always an object, so the `null` crash at line 67 cannot occur.
- All field values are assumed to be strings or absent. A value that is present but `null` or not a string would print as its Python `str()`. That is not modelled.
- Writing to standard output is modelled as appending lines. A field value that holds a line break stays one element of the output sequence.
- `InstanceReport.PrintReport` receives the security-group command's outcome as a parameter even on runs where it never issues that command. The `commands` result says whether it was issued.
- The repository's wider design describes more than the code does: IPv4/IPv6 selection, image/zone/type fields, per-group rule queries, a spreadsheet export with 31-character sheet names, a JSON export, region/project options and a credential check. `scw_instances_info.py` contains none of these. The model follows the code: rules come embedded in each listed security group, and the only output is the printed report.
