/*
 * The mutations dbv_100 ... dbv_168 of bin/dbsv-update.php:202-1426 as
 * statement lists, and the registry the driver probes (`function_exists`
 * on 'dbv_' . $db_version). Column types are recorded by their type name
 * (what sql_field_type compares against, e.g. 'DATETIME'); lengths,
 * defaults, comments and column positions are not part of the model.
 * Each table created here gets the database's default collation and the
 * engine of its CREATE TABLE statement.
 */
module Registry {
  import opened Schema
  import opened Mutations

  // Shorthands for the statement shapes the mutations repeat.

  /** if (!sql_field_exists(t, c)) ALTER TABLE t ADD COLUMN c ... */
  function AddField(t: string, c: string, ty: string): Stmt {
    When(Unless(HasField(t, c)), [AddColumn(t, c, ty)])
  }

  /** The same, followed by an UPDATE that fills the new column. */
  function AddFieldFill(t: string, c: string, ty: string, touched: seq<string>): Stmt {
    When(Unless(HasField(t, c)), [AddColumn(t, c, ty), DataChange(touched)])
  }

  /** if (sql_field_exists(t, c)) ALTER TABLE t DROP COLUMN c */
  function DropField(t: string, c: string): Stmt {
    When(If(HasField(t, c)), [DropColumn(t, c)])
  }

  /** if (!sql_index_exists(t, i)) ALTER TABLE t ADD INDEX i ... */
  function AddKey(t: string, i: string): Stmt {
    When(Unless(HasIndex(t, i)), [AddIndex(t, i)])
  }

  /** if (!sql_table_exists(t)) CREATE TABLE t (...) ENGINE=MyISAM */
  function NewTable(t: string, cols: map<string, string>, idx: set<string>): Stmt {
    When(Unless(HasTable(t)), [CreateTable(t, cols, idx, "MyISAM")])
  }

  /** if (sql_table_exists(t)) ALTER TABLE t COMMENT = ... */
  function CommentIfExists(t: string): Stmt {
    When(If(HasTable(t)), [AlterComment(t)])
  }

  function Touch(tables: seq<string>): Stmt { Do(DataChange(tables)) }
  function Redefine(t: string, c: string, ty: string): Stmt { Do(ChangeColumn(t, c, ty)) }
  function Comment(t: string): Stmt { Do(AlterComment(t)) }

  function Dbv100(): Unit {
    [When(Unless(FieldTyped("cache_logs", "date", "DATETIME")),
          [ChangeColumn("cache_logs", "date", "DATETIME")]),
     When(Unless(FieldTyped("cache_logs_archived", "date", "DATETIME")),
          [ChangeColumn("cache_logs_archived", "date", "DATETIME")])]
  }

  function Dbv101(): Unit {
    [AddField("caches", "meta_last_modified", "DATETIME"),
     AddFieldFill("cache_logs", "log_last_modified", "DATETIME", ["cache_logs", "pictures"]),
     AddFieldFill("cache_logs_archived", "log_last_modified", "DATETIME", ["cache_logs_archived"])]
  }

  function Dbv102(): Unit {
    [Touch(["stat_user", "caches"]),
     Touch(["stat_user", "caches", "cache_status"]),
     Do(CallProcedure("sp_refreshall_statpic"))]
  }

  function Dbv103(): Unit {
    [CommentIfExists("geodb_areas"), CommentIfExists("geodb_changelog"),
     CommentIfExists("geodb_coordinates"), CommentIfExists("geodb_floatdata"),
     CommentIfExists("geodb_hierarchies"), CommentIfExists("geodb_intdata"),
     CommentIfExists("geodb_locations"), CommentIfExists("geodb_polygons"),
     CommentIfExists("geodb_search"), CommentIfExists("geodb_textdata"),
     CommentIfExists("geodb_type_names"), CommentIfExists("pw_dict"),
     Comment("npa_areas"), Comment("npa_types"), Comment("nuts_codes"), Comment("nuts_layer")]
  }

  function Dbv104(): Unit {
    [Comment("log_types_text"),
     Comment("cache_logtype"),
     Redefine("log_types", "cache_status", "TINYINT"),
     Redefine("log_types", "en", "VARCHAR"),
     AddField("stat_caches", "maintenance", "SMALLINT"),
     AddField("stat_cache_logs", "maintenance", "SMALLINT"),
     AddField("stat_user", "maintenance", "SMALLINT"),
     AddField("cache_logs", "oc_team_comment", "TINYINT"),
     AddField("cache_logs_archived", "oc_team_comment", "TINYINT")]
  }

  function Dbv105(): Unit {
    [AddField("user", "desc_htmledit", "TINYINT"),
     AddFieldFill("user", "description", "MEDIUMTEXT", ["user", "user_options"])]
  }

  function Dbv106(): Unit {
    [NewTable("cache_status_modified",
              map["cache_id" := "INT", "date_modified" := "DATETIME", "old_state" := "TINYINT",
                  "new_state" := "TINYINT", "user_id" := "INT"],
              {"cache_id"})]
  }

  function Dbv107(): Unit {
    [Redefine("caches", "meta_last_modified", "DATETIME"),
     Redefine("countries", "en", "VARCHAR"),
     AddKey("cache_reports", "userid")]
  }

  function Dbv108(): Unit {
    [AddField("user", "last_email_problem", "DATETIME"),
     AddField("user", "mailing_problems", "INT")]
  }

  function Dbv109(): Unit {
    [AddField("user", "first_email_problem", "DATE")]
  }

  function Dbv110(): Unit {
    [When(Unless(HasTable("cache_adoptions")),
          [CreateTable("cache_adoptions",
                       map["id" := "INT", "cache_id" := "INT", "date" := "DATETIME",
                           "from_user_id" := "INT", "to_user_id" := "INT"],
                       {"PRIMARY", "cache_id"}, "MyISAM"),
           BackfillAdoptions])]
  }

  function Dbv111(): Unit {
    [Touch(["logentries"])]
  }

  function Dbv112(): Unit {
    [AddFieldFill("caches", "wp_gc_maintained", "VARCHAR", ["caches"]),
     AddKey("caches", "wp_gc_maintained")]
  }

  function Dbv113(): Unit {
    [When(Unless(HasTriggerFunction), [SyncTriggers])]
  }

  function Dbv114(): Unit { [Do(SyncTriggers)] }
  function Dbv115(): Unit { [Do(SyncTriggers)] }

  function Dbv116(): Unit {
    [Do(RebuildIndex("cache_logs", "date"))]
  }

  function Dbv117(): Unit {
    [AddFieldFill("user", "notify_oconly", "TINYINT", ["user"])]
  }

  function Dbv118(): Unit { [Redefine("user", "password", "VARCHAR")] }
  function Dbv119(): Unit { [Redefine("user", "admin", "SMALLINT")] }

  function Dbv120(): Unit {
    [Do(DropTableIfExists("mapresult")), Do(DropTableIfExists("mapresult_data"))]
  }

  function Dbv121(): Unit { [AddField("user", "accept_mailing", "TINYINT")] }
  function Dbv122(): Unit { [AddField("user", "usermail_send_addr", "TINYINT")] }

  function Dbv123(): Unit {
    [NewTable("cache_lists",
              map["id" := "INT", "uuid" := "VARCHAR", "user_id" := "INT",
                  "date_created" := "DATETIME", "last_modified" := "DATETIME",
                  "last_added" := "DATETIME", "name" := "VARCHAR", "is_public" := "TINYINT",
                  "entries" := "INT", "watchers" := "INT"],
              {"PRIMARY", "uuid", "name", "user_id"}),
     NewTable("cache_list_items",
              map["cache_list_id" := "INT", "cache_id" := "INT"],
              {"cache_list_id", "cache_id"}),
     NewTable("cache_list_watches",
              map["cache_list_id" := "INT", "user_id" := "INT"],
              {"cache_list_id", "user_id"}),
     AddField("caches", "show_cachelists", "TINYINT"),
     DropField("cache_watches", "last_executed")]
  }

  function Dbv124(): Unit {
    // CREATE TABLE ... SELECT reads cache_lists, so it fails without it
    [When(Unless(HasTable("stat_cache_lists")),
          [DataChange(["cache_lists"]),
           CreateTable("stat_cache_lists",
                       map["cache_list_id" := "INT", "entries" := "INT", "watchers" := "INT"],
                       {"PRIMARY"}, "MyISAM")]),
     DropField("cache_lists", "entries"),
     DropField("cache_lists", "watchers"),
     AddField("cache_lists", "description", "MEDIUMTEXT"),
     AddField("cache_lists", "desc_htmledit", "TINYINT")]
  }

  function Dbv125(): Unit {
    [AddFieldFill("cache_lists", "node", "TINYINT", ["cache_lists"]),
     AddField("cache_lists", "last_state_change", "DATETIME")]
  }

  function Dbv126(): Unit {
    [Touch(["cache_adoption", "user"]), Touch(["cache_ignore", "user"]), Touch(["cache_watches", "user"])]
  }

  function Dbv127(): Unit {
    [Touch(["nuts_codes"]), Touch(["cache_location"])]
  }

  function Dbv128(): Unit {
    [Touch(["gns_search"]),
     DropField("gns_search", "id"),
     Touch(["gns_locations", "gns_search"])]
  }

  function Dbv129(): Unit {
    [AddField("cache_lists", "password", "VARCHAR"),
     NewTable("cache_list_bookmarks",
              map["cache_list_id" := "INT", "user_id" := "INT", "password" := "VARCHAR"],
              {"cache_list_id", "user_id"})]
  }

  function Dbv130(): Unit {
    [Redefine("cache_desc", "desc_html", "TINYINT"),
     Redefine("cache_desc", "desc_htmledit", "TINYINT"),
     Redefine("cache_logs", "text_html", "TINYINT"),
     Redefine("cache_logs", "text_htmledit", "TINYINT"),
     Redefine("user", "no_htmledit_flag", "TINYINT")]
  }

  function Dbv131(): Unit { [AddField("languages", "native_name", "VARCHAR")] }
  function Dbv132(): Unit { [Touch(["cache_lists"])] }
  function Dbv133(): Unit { [AddField("user", "language", "CHAR")] }
  function Dbv134(): Unit { [Touch(["removed_objects"])] }
  function Dbv135(): Unit { [AddField("cache_type", "kml_name", "VARCHAR")] }

  function Dbv136(): Unit {
    [NewTable("towns",
              map["country" := "CHAR", "name" := "VARCHAR", "trans_id" := "INT",
                  "coord_lat" := "DOUBLE", "coord_long" := "DOUBLE", "maplist" := "TINYINT"],
              {"country"})]
  }

  function Dbv137(): Unit {
    [Redefine("cache_desc", "desc_html", "TINYINT"),
     Redefine("cache_logs", "text_html", "TINYINT"),
     Redefine("user", "no_htmledit_flag", "TINYINT")]
  }

  function Dbv138(): Unit {
    [AddKey("cache_reports", "cacheid"),
     AddKey("cache_adoptions", "from_user_id"),
     AddKey("cache_adoptions", "to_user_id"),
     AddKey("cache_watches", "user_id"),
     AddKey("notify_waiting", "user_id"),
     AddKey("stat_cache_logs", "user_id"),
     AddKey("watches_logqueue", "user_id")]
  }

  function Dbv139(): Unit { [AddField("user", "language_guessed", "TINYINT")] }
  function Dbv140(): Unit { [AddField("user", "domain", "VARCHAR")] }

  function Dbv141(): Unit {
    [Redefine("cache_logs", "log_last_modified", "DATETIME"),
     Redefine("log_types", "icon_small", "VARCHAR")]
  }

  function Dbv142(): Unit {
    [When(If(HasTable("search_words")), [DropTable("search_words")])]
  }

  function Dbv143(): Unit { [Redefine("caches", "wp_nc", "VARCHAR")] }

  function Dbv144(): Unit {
    [NewTable("cache_logs_modified",
              map["id" := "INT", "uuid" := "VARCHAR", "node" := "TINYINT",
                  "date_created" := "DATETIME", "last_modified" := "DATETIME",
                  "log_last_modified" := "DATETIME", "cache_id" := "INT", "user_id" := "INT",
                  "type" := "TINYINT", "oc_team_comment" := "TINYINT", "date" := "DATETIME",
                  "text" := "MEDIUMTEXT", "text_html" := "TINYINT", "modify_date" := "DATETIME"],
              {"id"})]
  }

  function Dbv145(): Unit {
    [Do(RebuildIndex("cache_logs_modified", "id")),
     Redefine("cache_logs_modified", "modify_date", "DATE")]
  }

  function Dbv146(): Unit {
    [AddField("cache_logs", "needs_maintenance", "TINYINT"),
     AddField("cache_logs", "listing_outdated", "TINYINT"),
     AddField("cache_logs_modified", "needs_maintenance", "TINYINT"),
     AddField("cache_logs_modified", "listing_outdated", "TINYINT"),
     AddField("cache_logs_archived", "needs_maintenance", "TINYINT"),
     AddField("cache_logs_archived", "listing_outdated", "TINYINT"),
     AddField("caches", "needs_maintenance", "TINYINT"),
     AddField("caches", "listing_outdated", "TINYINT"),
     AddField("caches", "flags_last_modified", "DATETIME")]
  }

  function Dbv147(): Unit { [AddField("log_types", "maintenance_logs", "TINYINT")] }

  function Dbv148(): Unit {
    [AddFieldFill("cache_logs", "entry_last_modified", "DATETIME", ["cache_logs"]),
     AddFieldFill("cache_logs_archived", "entry_last_modified", "DATETIME", ["cache_logs_archived"]),
     AddFieldFill("cache_logs_modified", "entry_last_modified", "DATETIME", ["cache_logs_modified"])]
  }

  function Dbv149(): Unit { [AddField("caches", "protect_old_coords", "TINYINT")] }

  function Dbv150(): Unit {
    [NewTable("waypoint_reports",
              map["report_id" := "INT", "date_reported" := "DATETIME", "wp_oc" := "VARCHAR",
                  "wp_external" := "VARCHAR", "source" := "VARCHAR", "gcwp_processed" := "TINYINT"],
              {"PRIMARY", "gcwp_processed"})]
  }

  /** The fills compute OrderDate.OrderDate for every row. */
  function Dbv151(): Unit {
    [AddFieldFill("cache_logs", "order_date", "DATETIME", ["cache_logs"]),
     AddKey("cache_logs", "order_date"),
     AddFieldFill("cache_logs_archived", "order_date", "DATETIME", ["cache_logs_archived"])]
  }

  function Dbv152(): Unit { [AddField("cache_reports", "comment", "MEDIUMTEXT")] }
  function Dbv153(): Unit { [Do(SyncTriggers)] }

  /** The data step is PictureOrder.InitPictureOrder. */
  function Dbv154(): Unit {
    [AddField("pictures", "seq", "SMALLINT"),
     Touch(["pictures"]),
     Do(RebuildIndex("pictures", "object_type"))]
  }

  function Dbv155(): Unit { [AddField("cache_report_reasons", "order", "TINYINT")] }
  function Dbv156(): Unit { [Touch(["cache_logs_modified"])] }
  function Dbv157(): Unit { [Touch(["user"])] }
  function Dbv158(): Unit { [Comment("cache_logs")] }
  function Dbv159(): Unit { [AddKey("caches", "date_hidden")] }

  /** A placeholder for a mutation replaced by dbv_165. */
  function Dbv160(): Unit { [] }

  function Dbv161(): Unit {
    [Do(ImportStaticData), Do(SyncTriggers), Touch(["cache_location"])]
  }

  /** A placeholder for a mutation replaced by dbv_163. */
  function Dbv162(): Unit { [] }

  function Dbv163(): Unit { [Do(SyncTriggers)] }

  function Dbv164(): Unit {
    [Do(ImportStaticData),
     Touch(["nuts_layer"]),
     Touch(["cache_location", "nuts_codes"]),
     Touch(["nuts_layer"]),
     Touch(["cache_location"])]
  }

  function Dbv165(): Unit {
    [Touch(["npa_areas"]), Touch(["npa_areas"]), Touch(["npa_areas"])]
  }

  function Dbv166(): Unit {
    [Touch(["search_index"]),
     Touch(["search_index_times"]),
     Comment("search_index_times"),
     Redefine("search_index_times", "object_id", "INT"),
     Touch(["search_index_times", "caches"])]
  }

  function Dbv167(): Unit { [Touch(["sys_cron"])] }

  function Dbv168(): Unit {
    [AddField("countries", "adm_display2", "TINYINT"),
     AddField("countries", "adm_display3", "TINYINT"),
     Touch(["cache_location"]), Touch(["cache_location"]), Touch(["cache_location"])]
  }

  const First := 100
  const Last := 168

  /** The body of dbv_<n>. */
  function UnitBody(n: int): Unit
    requires First <= n <= Last
  {
    match n
    case 100 => Dbv100() case 101 => Dbv101() case 102 => Dbv102() case 103 => Dbv103()
    case 104 => Dbv104() case 105 => Dbv105() case 106 => Dbv106() case 107 => Dbv107()
    case 108 => Dbv108() case 109 => Dbv109() case 110 => Dbv110() case 111 => Dbv111()
    case 112 => Dbv112() case 113 => Dbv113() case 114 => Dbv114() case 115 => Dbv115()
    case 116 => Dbv116() case 117 => Dbv117() case 118 => Dbv118() case 119 => Dbv119()
    case 120 => Dbv120() case 121 => Dbv121() case 122 => Dbv122() case 123 => Dbv123()
    case 124 => Dbv124() case 125 => Dbv125() case 126 => Dbv126() case 127 => Dbv127()
    case 128 => Dbv128() case 129 => Dbv129() case 130 => Dbv130() case 131 => Dbv131()
    case 132 => Dbv132() case 133 => Dbv133() case 134 => Dbv134() case 135 => Dbv135()
    case 136 => Dbv136() case 137 => Dbv137() case 138 => Dbv138() case 139 => Dbv139()
    case 140 => Dbv140() case 141 => Dbv141() case 142 => Dbv142() case 143 => Dbv143()
    case 144 => Dbv144() case 145 => Dbv145() case 146 => Dbv146() case 147 => Dbv147()
    case 148 => Dbv148() case 149 => Dbv149() case 150 => Dbv150() case 151 => Dbv151()
    case 152 => Dbv152() case 153 => Dbv153() case 154 => Dbv154() case 155 => Dbv155()
    case 156 => Dbv156() case 157 => Dbv157() case 158 => Dbv158() case 159 => Dbv159()
    case 160 => Dbv160() case 161 => Dbv161() case 162 => Dbv162() case 163 => Dbv163()
    case 164 => Dbv164() case 165 => Dbv165() case 166 => Dbv166() case 167 => Dbv167()
    case 168 => Dbv168()
    case _ => []
  }

  /** Which dbv_<n> functions exist. */
  function Units(): (reg: map<int, Unit>)
    ensures forall n :: n in reg <==> First <= n <= Last
  {
    map n | First <= n <= Last :: UnitBody(n)
  }
}
